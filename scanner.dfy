/** The packetizer in front of the scan pipeline (components/ScannerCapture.tsx):
    a barcode scanner acts as a keyboard, so printable keys are collected into a
    buffer and the buffer is handed on as one packet when Enter arrives. */
module Scanner {
  import opened Common
  import opened Text

  /** A keyboard event as the two document listeners receive it. */
  datatype Event = KeyDown(key: string) | KeyPress(key: string)

  /** The text a run of `keypress` key names contributes: the keys whose name
      is one UTF-16 code unit long, in order. */
  function Typed(keys: seq<string>): (s: string)
    ensures |s| <= |keys|
  {
    if keys == [] then "" else KeyText(keys[0]) + Typed(keys[1..])
  }

  /** What one `keypress` key contributes: itself when its JavaScript length
      is 1, nothing for names such as "Shift" or "Enter", and nothing for a
      character beyond U+FFFF, which JavaScript counts as two units. */
  function KeyText(key: string): (s: string)
    ensures |s| <= 1
    ensures s == "" <==> Utf16Length(key) != 1
    ensures s != "" ==> s == key && s[0] as int < 0x1_0000
  {
    OneCodeUnit(key);
    if Utf16Length(key) == 1 then key else ""
  }

  /** A key beyond the Basic Multilingual Plane, such as an emoji, is a
      surrogate pair in JavaScript and types nothing. */
  lemma AstralKeyTypesNothing(c: char)
    requires c as int >= 0x1_0000
    ensures KeyText([c]) == ""
  {
    OneCodeUnit([c]);
  }

  /** Keys arriving one after another add their text at the end. */
  lemma {:induction false} TypedSnoc(keys: seq<string>, key: string)
    ensures Typed(keys + [key]) == Typed(keys) + KeyText(key)
    decreases |keys|
  {
    if keys == [] {
      assert [] + [key] == [key];
    } else {
      assert (keys + [key])[1..] == keys[1..] + [key];
      TypedSnoc(keys[1..], key);
    }
  }

  /** What handling one event does: the new buffer, the packet handed to
      `onScan` (if any), the value handed to `onProgress` (if any), and whether
      the browser's default action was suppressed. */
  datatype Effect = Effect(buf: string, packet: Option<string>, progress: Option<string>, prevented: bool)

  /** The reference semantics of the two listeners for one event. */
  function Step(buf: string, e: Event, blockTyping: bool): Effect {
    match e
    case KeyPress(k) =>
      if Utf16Length(k) != 1 then Effect(buf, None, None, false)
      else Effect(buf + k, None, Some(buf + k), blockTyping)
    case KeyDown(k) =>
      if k != "Enter" then Effect(buf, None, None, false)
      else if buf == "" then Effect(buf, None, None, blockTyping)
      else Effect("", Some(buf), Some(""), blockTyping)
  }

  /** The packets emitted by a stream of events, and the buffer left at the end. */
  function Run(buf: string, events: seq<Event>, blockTyping: bool): (seq<string>, string)
    decreases |events|
  {
    if events == [] then ([], buf)
    else
      var e := Step(buf, events[0], blockTyping);
      var (rest, last) := Run(e.buf, events[1..], blockTyping);
      ((if e.packet.Some? then [e.packet.value] else []) + rest, last)
  }

  /** The key names of the `keypress` events of a stream. */
  function Presses(events: seq<Event>): seq<string> {
    if events == [] then []
    else (if events[0].KeyPress? then [events[0].key] else []) + Presses(events[1..])
  }

  function Concat(packets: seq<string>): string {
    if packets == [] then "" else packets[0] + Concat(packets[1..])
  }

  /** The text one event types: a `keypress` key's text, nothing for a `keydown`. */
  function EventText(e: Event): string {
    if e.KeyPress? then KeyText(e.key) else ""
  }

  /** One event loses and invents nothing: the packet it emits (if any),
      followed by the new buffer, is the old buffer followed by the event's text. */
  lemma StepConservesText(buf: string, e: Event, blockTyping: bool)
    ensures var s := Step(buf, e, blockTyping);
            (if s.packet.Some? then s.packet.value else "") + s.buf == buf + EventText(e)
  {
    if e.KeyDown? {
      assert buf + "" == buf;
    }
  }

  /** The keys pressed over a stream: those of its first event, then the rest. */
  lemma PressesFirst(events: seq<Event>)
    requires events != []
    ensures Typed(Presses(events)) == EventText(events[0]) + Typed(Presses(events[1..]))
  {
    var rest := Presses(events[1..]);
    if events[0].KeyPress? {
      assert Presses(events) == [events[0].key] + rest;
      assert ([events[0].key] + rest)[1..] == rest;
    } else {
      assert Presses(events) == rest;
    }
  }

  /** The packets of a stream: the first event's packet (if any), then the rest. */
  lemma RunFirst(buf: string, events: seq<Event>, blockTyping: bool)
    requires events != []
    ensures var e := Step(buf, events[0], blockTyping);
            Concat(Run(buf, events, blockTyping).0)
              == (if e.packet.Some? then e.packet.value else "") + Concat(Run(e.buf, events[1..], blockTyping).0)
  {
    var e := Step(buf, events[0], blockTyping);
    var rest := Run(e.buf, events[1..], blockTyping).0;
    var ps := Run(buf, events, blockTyping).0;
    if e.packet.Some? {
      assert ps == [e.packet.value] + rest;
      assert ps[1..] == rest;
    } else {
      assert ps == [] + rest == rest;
    }
  }

  /** No character is lost or invented: the packets of a stream, followed by
      what is still buffered, spell the starting buffer followed by every
      key of JavaScript length 1 pressed, in order. */
  lemma {:induction false} RunConservesText(buf: string, events: seq<Event>, blockTyping: bool)
    ensures Concat(Run(buf, events, blockTyping).0) + Run(buf, events, blockTyping).1
            == buf + Typed(Presses(events))
    decreases |events|
  {
    if events == [] {
      assert buf + "" == buf;
    } else {
      var e := Step(buf, events[0], blockTyping);
      var head := if e.packet.Some? then e.packet.value else "";
      var rest := Concat(Run(e.buf, events[1..], blockTyping).0);
      var last := Run(e.buf, events[1..], blockTyping).1;
      var typed := Typed(Presses(events[1..]));
      assert Run(buf, events, blockTyping).1 == last;
      RunConservesText(e.buf, events[1..], blockTyping);
      StepConservesText(buf, events[0], blockTyping);
      PressesFirst(events);
      RunFirst(buf, events, blockTyping);
      Regroup(head, rest, last, e.buf, typed, buf, EventText(events[0]));
    }
  }

  /** String bookkeeping for one step of `RunConservesText`. */
  lemma Regroup(head: string, rest: string, last: string, mid: string, typed: string, buf: string, text: string)
    requires rest + last == mid + typed
    requires head + mid == buf + text
    ensures (head + rest) + last == buf + (text + typed)
  {
    calc {
      (head + rest) + last;
      head + (rest + last);
      head + (mid + typed);
      (head + mid) + typed;
      (buf + text) + typed;
    }
  }

  /** Every packet a stream emits is non-empty. */
  lemma {:induction false} RunPacketsNonEmpty(buf: string, events: seq<Event>, blockTyping: bool)
    ensures forall i :: 0 <= i < |Run(buf, events, blockTyping).0| ==> Run(buf, events, blockTyping).0[i] != ""
    decreases |events|
  {
    if events != [] {
      var e := Step(buf, events[0], blockTyping);
      RunPacketsNonEmpty(e.buf, events[1..], blockTyping);
    }
  }

  /** The capture component: `buf` is the `useRef` buffer; `received` records,
      for the proof only, the keys of every `keypress` since the last flush. */
  class ScannerCapture {
    const blockTyping: bool
    var buf: string
    ghost var received: seq<string>

    /** The buffer is exactly the text typed since the last flush. */
    ghost predicate Valid()
      reads this
    {
      buf == Typed(received)
    }

    constructor (blockTyping: bool)
      ensures Valid() && this.blockTyping == blockTyping
      ensures buf == "" && received == []
    {
      this.blockTyping := blockTyping;
      buf := "";
      received := [];
    }

    /** `flush`: hand a non-empty buffer on as one packet and empty it. */
    method Flush() returns (packet: Option<string>, progress: Option<string>)
      requires Valid()
      modifies this
      ensures Valid()
      ensures old(buf) == "" ==> packet == None && progress == None
                                 && buf == old(buf) && received == old(received)
      ensures old(buf) != "" ==> packet == Some(Typed(old(received))) && progress == Some("")
                                 && buf == "" && received == []
    {
      var s := buf;
      if |s| > 0 {
        buf := "";
        received := [];
        progress := Some("");
        packet := Some(s);
      } else {
        packet, progress := None, None;
      }
    }

    /** The `keydown` listener: Enter ends the packet. */
    method OnKeyDown(key: string) returns (packet: Option<string>, progress: Option<string>, prevented: bool)
      requires Valid()
      modifies this
      ensures Valid()
      ensures Effect(buf, packet, progress, prevented) == Step(old(buf), KeyDown(key), blockTyping)
      ensures packet.Some? ==> packet.value != "" && packet.value == Typed(old(received))
      ensures packet.None? ==> received == old(received)
      ensures packet.Some? ==> received == []
    {
      packet, progress, prevented := None, None, false;
      if key == "Enter" {
        prevented := blockTyping;
        packet, progress := Flush();
      }
    }

    /** The `keypress` listener: a key whose JavaScript length is 1 is appended. */
    method OnKeyPress(key: string) returns (progress: Option<string>, prevented: bool)
      requires Valid()
      modifies this
      ensures Valid()
      ensures Effect(buf, None, progress, prevented) == Step(old(buf), KeyPress(key), blockTyping)
      ensures received == old(received) + [key]
    {
      TypedSnoc(received, key);
      received := received + [key];
      if Utf16Length(key) != 1 {
        return None, false;
      }
      buf := buf + key;
      progress := Some(buf);
      prevented := blockTyping;
    }
  }
}
