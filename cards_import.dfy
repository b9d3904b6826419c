/** The catalogue import (`POST /api/wb/cards/import`,
    app/api/wb/cards/import/route.ts): check the access token, page through
    the marketplace's card list, flatten every card into six row lists, and
    insert each list in chunks. The marketplace and the database are
    parameters: `fetch` answers a page request, `Store` answers a chunk insert. */
module CardsImport {
  import opened Common
  import opened Text
  import opened Json

  // ---------------------------------------------------------------------
  // The access token

  const TokenMissingMessage := "WB_API_TOKEN не задан в окружении сервера"
  const TokenCharsMessage := "WB_API_TOKEN содержит недопустимые символы (только латиница/цифры). Проверь .env.local"

  /** `s` begins with `word` (lower-case ASCII) in any mix of cases; without
      the `u` flag, `/i` folds only ASCII letters onto ASCII letters. */
  predicate StartsWithIgnoringCase(s: string, word: string) {
    |s| >= |word| && Lower(s[..|word|]) == word
  }

  /** `t` is an end piece of `s`. */
  predicate IsSuffix(t: string, s: string) {
    |t| <= |s| && t == s[|s| - |t|..]
  }

  /** Neither end of `s` is white space. */
  predicate Trimmed(s: string) {
    s == [] || (!IsSpace(s[0]) && !IsSpace(s[|s| - 1]))
  }

  /** Removes a leading `Authorization:` in any case, and the white space
      after it (`\s*`). */
  function StripAuthorization(s: string): (r: string)
    ensures IsSuffix(r, s)
    ensures Trimmed(s) ==> Trimmed(r)
  {
    if StartsWithIgnoringCase(s, "authorization:") then
      TrimStartAfter(s, 14);
      TrimStart(s[14..])
    else s
  }

  /** Removes a leading `Bearer` in any case, with the white space after it
      (`\s+`): the word needs at least one white-space character after it. */
  function StripBearer(s: string): (r: string)
    ensures IsSuffix(r, s)
    ensures Trimmed(s) ==> Trimmed(r)
  {
    if StartsWithIgnoringCase(s, "bearer") && |s| > 6 && IsSpace(s[6]) then
      TrimStartAfter(s, 6);
      TrimStart(s[6..])
    else s
  }

  /** Dropping the first `n` characters and then leading white space leaves
      an end piece, which keeps a trimmed string trimmed. */
  lemma TrimStartAfter(s: string, n: nat)
    requires n <= |s|
    ensures IsSuffix(TrimStart(s[n..]), s)
    ensures Trimmed(s) ==> Trimmed(TrimStart(s[n..]))
  {
    var r := TrimStart(s[n..]);
    SuffixOfSuffix(r, s[n..], s);
    if r != [] {
      assert r[|r| - 1] == s[|s| - 1];
    }
  }

  /** An end piece of an end piece of `s` is an end piece of `s`. */
  lemma SuffixOfSuffix(t: string, u: string, s: string)
    requires IsSuffix(t, u) && IsSuffix(u, s)
    ensures IsSuffix(t, s)
  {
    assert s[|s| - |t|..] == s[|s| - |u|..][|u| - |t|..];
  }

  /** The token as the route uses it: trimmed, then without a leading
      `Authorization:` and then without a leading `Bearer `. What is left is
      an end piece of the trimmed input and has no white space at either end. */
  function NormalizeToken(raw: string): (t: string)
    ensures IsSuffix(t, Trim(raw))
    ensures Trim(t) == t
  {
    var u := Trim(raw);
    TrimEdges(raw);
    var a := StripAuthorization(u);
    var t := StripBearer(a);
    SuffixOfSuffix(t, a, u);
    TrimOfTrimmed(t);
    t
  }

  /** Removing leading white space from one blank and then a word gives the word. */
  lemma TrimStartAfterBlank(s: string)
    requires s == [] || !IsSpace(s[0])
    ensures TrimStart([' '] + s) == s
  {
    assert ([' '] + s)[1..] == s;
  }

  /** A bare token (trimmed, not starting with either prefix) is kept as it is. */
  lemma {:induction false} BareTokenKept(t: string)
    requires t != [] && Trimmed(t)
    requires !StartsWithIgnoringCase(t, "authorization:") && !StartsWithIgnoringCase(t, "bearer")
    ensures NormalizeToken(t) == t
  {
    TrimOfTrimmed(t);
  }

  /** A string starting with `p` starts with `p` ignoring case. */
  lemma {:induction false} PrefixIgnoringCase(p: string, word: string, rest: string)
    requires Lower(p) == word
    ensures StartsWithIgnoringCase(p + rest, word)
  {
    assert (p + rest)[..|word|] == p;
  }

  /** A string whose first letter differs from the word's does not start with it. */
  lemma FirstLetterDiffers(s: string, word: string)
    requires s != [] && word != [] && LowerChar(s[0]) != word[0]
    ensures !StartsWithIgnoringCase(s, word)
  {
    if |s| >= |word| {
      assert Lower(s[..|word|])[0] == LowerChar(s[0]);
    }
  }

  /** `Authorization: ` in front of a word is removed. */
  lemma {:induction false} StripAuthorizationPrefix(b: string)
    requires b == [] || !IsSpace(b[0])
    ensures StripAuthorization("Authorization: " + b) == b
  {
    var a := "Authorization: " + b;
    AuthorizationWord();
    PrefixIgnoringCase("Authorization:", "authorization:", " " + b);
    assert a == "Authorization:" + (" " + b);
    assert a[14..] == [' '] + b;
    TrimStartAfterBlank(b);
  }

  /** `Bearer ` in front of a word is removed. */
  lemma {:induction false} StripBearerPrefix(t: string)
    requires t == [] || !IsSpace(t[0])
    ensures StripBearer("Bearer " + t) == t
  {
    var b := "Bearer " + t;
    BearerWord();
    PrefixIgnoringCase("Bearer", "bearer", " " + t);
    assert b == "Bearer" + (" " + t);
    assert b[6..] == [' '] + t;
    TrimStartAfterBlank(t);
  }

  /** A word in front of a trimmed word leaves nothing to trim. */
  lemma PrefixedTrimmed(p: string, s: string)
    requires p != [] && !IsSpace(p[0]) && s != [] && Trimmed(s)
    ensures Trim(p + s) == p + s
  {
    var ps := p + s;
    assert ps[0] == p[0] && ps[|ps| - 1] == s[|s| - 1];
    TrimOfTrimmed(ps);
  }

  /** `Bearer <token>` gives the bare token. */
  lemma {:induction false} BearerTokenKept(t: string)
    requires t != [] && Trimmed(t)
    ensures NormalizeToken("Bearer " + t) == t
  {
    var b := "Bearer " + t;
    assert b[0] == 'B';
    FirstLetterDiffers(b, "authorization:");
    PrefixedTrimmed("Bearer ", t);
    StripBearerPrefix(t);
  }

  /** `Authorization: Bearer <token>` gives the bare token. */
  lemma {:induction false} AuthorizationTokenKept(t: string)
    requires t != [] && Trimmed(t)
    ensures NormalizeToken("Authorization: Bearer " + t) == t
  {
    var b := "Bearer " + t;
    assert "Authorization: Bearer " + t == "Authorization: " + b;
    assert b[0] == 'B' && b[|b| - 1] == t[|t| - 1];
    PrefixedTrimmed("Authorization: ", b);
    StripAuthorizationPrefix(b);
    StripBearerPrefix(t);
  }

  lemma AuthorizationWord()
    ensures Lower("Authorization:") == "authorization:"
  {
  }

  lemma BearerWord()
    ensures Lower("Bearer") == "bearer"
  {
  }

  // ---------------------------------------------------------------------
  // One page of the card list

  const PageLimit := 100
  const MaxPages := 5000
  const BadJsonMessage := "WB API: пустой или невалидный JSON"

  /** The cursor a page reports back. */
  datatype PageCursor = PageCursor(total: int, updatedAt: Option<string>, nmID: Option<int>)

  /** The cursor the loop carries from one page to the next. */
  datatype Cursor = Cursor(updatedAt: Option<string>, nmID: Option<int>)

  /** The cursor part of a request body: nothing beyond `limit: 100` on the
      first page, `updatedAt` and `nmID` afterwards. */
  datatype RequestCursor = FirstPage | After(updatedAt: string, nmID: int)

  /** The HTTP answer to a page request: `json` is the parsed body, `None`
      when the body is empty or not JSON. */
  datatype HttpReply = HttpReply(ok: bool, status: int, text: string, json: Option<Json>)

  datatype Page = Page(cards: seq<Json>, cursor: PageCursor)

  /** The request body `wbFetchPage` builds for a cursor: the cursor fields
      are sent only when `updatedAt` is a non-empty string and `nmID` is set. */
  function RequestFor(c: Option<Cursor>): (r: RequestCursor)
    ensures r.After? <==> c.Some? && c.value.updatedAt.Some? && c.value.updatedAt.value != "" && c.value.nmID.Some?
    ensures r.After? ==> r == After(c.value.updatedAt.value, c.value.nmID.value)
  {
    if c.Some? && c.value.updatedAt.Some? && c.value.updatedAt.value != "" && c.value.nmID.Some?
    then After(c.value.updatedAt.value, c.value.nmID.value)
    else FirstPage
  }

  function NextCursor(p: PageCursor): Cursor {
    Cursor(p.updatedAt, p.nmID)
  }

  /** The message of a failed page request: the body's truthy `error` field
      printed with `String`, else the body text, else the status line. */
  function HttpErrorText(r: HttpReply): (m: string)
    ensures r.json.None? && r.text != "" ==> m == r.text
    ensures r.json.None? && r.text == "" ==> m == "WB API HTTP " + IntString(r.status)
  {
    var e := if r.json.Some? && Truthy(r.json.value) then Prop(r.json.value, "error") else JNull;
    if Truthy(e) then JsString(e)
    else if r.text != "" then r.text
    else "WB API HTTP " + IntString(r.status)
  }

  /** `wbFetchPage` once the reply has arrived: an error status or a body
      that is not a JSON object or array throws; otherwise the cards are the
      body's `cards` array (none when it is not an array), and the cursor's
      total is read with `asBigint`, 0 when missing. */
  function ReadPage(r: HttpReply): (p: Result<Page>)
    ensures !r.ok ==> p == Fail(HttpErrorText(r))
    ensures r.ok ==> (p.Ok? <==> r.json.Some? && (r.json.value.JObject? || r.json.value.JArray?))
    ensures r.ok && p.Fail? ==> p.message == BadJsonMessage
    ensures p.Ok? ==> p.value.cards == (if Prop(r.json.value, "cards").JArray? then Prop(r.json.value, "cards").items else [])
    ensures p.Ok? && r.json.value.JArray? ==> p.value.cursor == PageCursor(0, None, None)
  {
    if !r.ok then Fail(HttpErrorText(r))
    else if r.json.None? || !Truthy(r.json.value) || !(r.json.value.JObject? || r.json.value.JArray?) then
      Fail(BadJsonMessage)
    else
      var json := r.json.value;
      var cards := if Prop(json, "cards").JArray? then Prop(json, "cards").items else [];
      var c0 := Prop(json, "cursor");
      var cursorOut := if Truthy(c0) then c0 else JObject([]);
      var total := AsBigint(Prop(cursorOut, "total")).GetOr(0);
      var updatedAt := Prop(cursorOut, "updatedAt");
      Ok(Page(cards, PageCursor(total, if updatedAt.JString? then Some(updatedAt.s) else None,
                                AsBigint(Prop(cursorOut, "nmID")))))
  }

  // ---------------------------------------------------------------------
  // The page loop

  /** `wbFetchPage`: ask for the page after a cursor and read the reply. */
  function FetchPage(fetch: RequestCursor -> HttpReply): (read: RequestCursor -> Result<Page>)
    ensures forall req :: read(req) == ReadPage(fetch(req))
  {
    req => ReadPage(fetch(req))
  }

  datatype Crawled = Crawled(pages: nat, cards: seq<Json>)

  /** The outcome of the page loop from request `req`, with `done` pages
      already read: the first failing page stops everything; a page whose
      total is below 100, or page 5001, is the last one. */
  function Crawl(read: RequestCursor -> Result<Page>, req: RequestCursor, done: nat): (r: Result<Crawled>)
    requires done <= MaxPages
    ensures r.Ok? ==> done + 1 <= r.value.pages <= MaxPages + 1
    decreases MaxPages - done
  {
    var p :- read(req);
    if p.cursor.total < PageLimit || done + 1 > MaxPages then Ok(Crawled(done + 1, p.cards))
    else
      var rest :- Crawl(read, RequestFor(Some(NextCursor(p.cursor))), done + 1);
      Ok(Crawled(rest.pages, p.cards + rest.cards))
  }

  /** Cards already gathered, put in front of what the rest of the loop gathers. */
  function Behind(cards: seq<Json>, r: Result<Crawled>): Result<Crawled> {
    if r.Fail? then r else Ok(Crawled(r.value.pages, cards + r.value.cards))
  }

  /** One turn of the page loop. */
  lemma CrawlStep(read: RequestCursor -> Result<Page>, req: RequestCursor, done: nat)
    requires done <= MaxPages
    ensures read(req).Fail? ==> Crawl(read, req, done) == Fail(read(req).message)
    ensures read(req).Ok? ==>
              var p := read(req).value;
              Crawl(read, req, done) ==
                if p.cursor.total < PageLimit || done + 1 > MaxPages then Ok(Crawled(done + 1, p.cards))
                else Behind(p.cards, Crawl(read, RequestFor(Some(NextCursor(p.cursor))), done + 1))
  {
  }

  /** Nothing gathered yet changes nothing. */
  lemma NothingCrawledBehind(r: Result<Crawled>)
    ensures Behind([], r) == r
  {
    if r.Ok? {
      assert [] + r.value.cards == r.value.cards;
    }
  }

  /** Cards gathered in two steps are the cards of both steps, in order. */
  lemma CrawledBehindTwice(a: seq<Json>, b: seq<Json>, r: Result<Crawled>)
    ensures Behind(a, Behind(b, r)) == Behind(a + b, r)
  {
    if r.Ok? {
      assert a + (b + r.value.cards) == (a + b) + r.value.cards;
    }
  }

  /** Page `req` was read and asked for another page, namely `next`. */
  predicate Continues(read: RequestCursor -> Result<Page>, req: RequestCursor, next: RequestCursor) {
    && read(req).Ok?
    && read(req).value.cursor.total >= PageLimit
    && next == RequestFor(Some(NextCursor(read(req).value.cursor)))
  }

  /** Each request in `rs` after the first continues from the one before it. */
  predicate Chained(read: RequestCursor -> Result<Page>, rs: seq<RequestCursor>) {
    forall k :: 0 <= k < |rs| - 1 ==> Continues(read, rs[k], rs[k + 1])
  }

  /** The requests the page loop sends from request `req` on, with `done`
      pages already read. */
  function Requests(read: RequestCursor -> Result<Page>, req: RequestCursor, done: nat): (rs: seq<RequestCursor>)
    requires done <= MaxPages
    ensures 1 <= |rs| <= MaxPages + 1 - done && rs[0] == req
    decreases MaxPages - done
  {
    var r := read(req);
    if r.Fail? || r.value.cursor.total < PageLimit || done + 1 > MaxPages then [req]
    else [req] + Requests(read, RequestFor(Some(NextCursor(r.value.cursor))), done + 1)
  }

  /** Every request in `reqs` was answered with a page. */
  predicate AllRead(read: RequestCursor -> Result<Page>, reqs: seq<RequestCursor>) {
    forall k :: 0 <= k < |reqs| ==> read(reqs[k]).Ok?
  }

  /** The cards of the pages answering `reqs`, in request order. */
  function CardsOf(read: RequestCursor -> Result<Page>, reqs: seq<RequestCursor>): seq<Json>
    requires AllRead(read, reqs)
  {
    if reqs == [] then []
    else read(reqs[0]).value.cards + CardsOf(read, reqs[1..])
  }

  /** Each request the page loop sends after the first carries the cursor of
      the page before it, and that page reported a total of at least 100. */
  lemma {:induction false} RequestsChain(read: RequestCursor -> Result<Page>, req: RequestCursor, done: nat)
    requires done <= MaxPages
    ensures Chained(read, Requests(read, req, done))
    decreases MaxPages - done
  {
    var rs := Requests(read, req, done);
    var r := read(req);
    if !(r.Fail? || r.value.cursor.total < PageLimit || done + 1 > MaxPages) {
      var next := RequestFor(Some(NextCursor(r.value.cursor)));
      var rest := Requests(read, next, done + 1);
      RequestsChain(read, next, done + 1);
      assert rs == [req] + rest;
      assert Continues(read, req, next);
      forall k | 0 <= k < |rs| - 1
        ensures Continues(read, rs[k], rs[k + 1])
      {
        if k > 0 {
          var j := k - 1;
          assert 0 <= j < |rest| - 1;
          assert Continues(read, rest[j], rest[j + 1]);
          assert rs[k] == rest[j] && rs[k + 1] == rest[j + 1];
        } else {
          assert rs[0] == req && rs[1] == rest[0] == next;
        }
      }
    }
  }

  /** When the page loop fails, the last request it sent is the one whose
      page failed, with the same message. */
  lemma {:induction false} RequestsFailure(read: RequestCursor -> Result<Page>, req: RequestCursor, done: nat)
    requires done <= MaxPages
    requires Crawl(read, req, done).Fail?
    ensures var rs := Requests(read, req, done);
            read(rs[|rs| - 1]) == Fail(Crawl(read, req, done).message)
    decreases MaxPages - done
  {
    var r := read(req);
    CrawlStep(read, req, done);
    if !(r.Fail? || r.value.cursor.total < PageLimit || done + 1 > MaxPages) {
      var next := RequestFor(Some(NextCursor(r.value.cursor)));
      var rest := Requests(read, next, done + 1);
      RequestsFailure(read, next, done + 1);
      assert Requests(read, req, done) == [req] + rest;
    }
  }

  /** When the page loop succeeds, every page it asked for was read, it
      counts one page per request, and the last page reported a total below
      100 or was page 5001. */
  lemma {:induction false} RequestsSuccess(read: RequestCursor -> Result<Page>, req: RequestCursor, done: nat)
    requires done <= MaxPages
    requires Crawl(read, req, done).Ok?
    ensures var rs := Requests(read, req, done);
            && Crawl(read, req, done).value.pages == done + |rs|
            && AllRead(read, rs)
            && (read(rs[|rs| - 1]).value.cursor.total < PageLimit || done + |rs| == MaxPages + 1)
    decreases MaxPages - done
  {
    var rs := Requests(read, req, done);
    var r := read(req);
    CrawlStep(read, req, done);
    if r.value.cursor.total < PageLimit || done + 1 > MaxPages {
      assert rs == [req];
    } else {
      var next := RequestFor(Some(NextCursor(r.value.cursor)));
      var rest := Requests(read, next, done + 1);
      RequestsSuccess(read, next, done + 1);
      assert rs == [req] + rest;
      forall k | 0 <= k < |rs| ensures read(rs[k]).Ok? {
        if k > 0 {
          assert rs[k] == rest[k - 1];
        }
      }
      assert rs[|rs| - 1] == rest[|rest| - 1];
    }
  }

  /** When the page loop succeeds, the cards it gathered are those of all
      the pages it asked for, in order. */
  lemma {:induction false} RequestsCards(read: RequestCursor -> Result<Page>, req: RequestCursor, done: nat)
    requires done <= MaxPages
    requires Crawl(read, req, done).Ok?
    ensures var rs := Requests(read, req, done);
            AllRead(read, rs) && Crawl(read, req, done).value.cards == CardsOf(read, rs)
    decreases MaxPages - done
  {
    var rs := Requests(read, req, done);
    var r := read(req);
    RequestsSuccess(read, req, done);
    CrawlStep(read, req, done);
    if r.value.cursor.total < PageLimit || done + 1 > MaxPages {
      assert rs == [req];
      assert rs[1..] == [];
    } else {
      var next := RequestFor(Some(NextCursor(r.value.cursor)));
      var rest := Requests(read, next, done + 1);
      RequestsCards(read, next, done + 1);
      assert rs == [req] + rest;
      assert rs[1..] == rest;
      assert CardsOf(read, rs) == r.value.cards + CardsOf(read, rest);
    }
  }

  /** The page loop stops at page `req`. */
  lemma StopsAt(read: RequestCursor -> Result<Page>, req: RequestCursor, done: nat)
    requires done <= MaxPages
    requires read(req).Fail? || read(req).value.cursor.total < PageLimit || done + 1 > MaxPages
    ensures Requests(read, req, done) == [req]
    ensures read(req).Fail? ==> Crawl(read, req, done) == Fail(read(req).message)
    ensures read(req).Ok? ==> Crawl(read, req, done) == Ok(Crawled(done + 1, read(req).value.cards))
  {
  }

  /** The page loop goes on after page `req`. */
  lemma GoesOnAfter(read: RequestCursor -> Result<Page>, req: RequestCursor, done: nat)
    requires done < MaxPages
    requires read(req).Ok? && read(req).value.cursor.total >= PageLimit
    ensures var next := RequestFor(Some(NextCursor(read(req).value.cursor)));
            && Requests(read, req, done) == [req] + Requests(read, next, done + 1)
            && Crawl(read, req, done) == Behind(read(req).value.cards, Crawl(read, next, done + 1))
  {
  }

  /** The `while (true)` loop of `POST`: returns the outcome of the loop
      and the requests it sent, in order. */
  method FetchAll(read: RequestCursor -> Result<Page>) returns (result: Result<Crawled>, requests: seq<RequestCursor>)
    ensures result == Crawl(read, FirstPage, 0)
    ensures requests == Requests(read, FirstPage, 0)
  {
    var page: nat := 0;
    var cursor: Option<Cursor> := None;
    var all: seq<Json> := [];
    requests := [];
    NothingCrawledBehind(Crawl(read, FirstPage, 0));
    while true
      invariant page <= MaxPages
      invariant Requests(read, FirstPage, 0) == requests + Requests(read, RequestFor(cursor), page)
      invariant Crawl(read, FirstPage, 0) == Behind(all, Crawl(read, RequestFor(cursor), page))
      decreases MaxPages - page
    {
      var req := RequestFor(cursor);
      ghost var done := page;
      ghost var gathered := all;
      ghost var before := requests;
      page := page + 1;
      requests := requests + [req];
      var reply := read(req);
      if reply.Fail? {
        CrawlStops(read, req, done, before, gathered);
        return Fail(reply.message), requests;
      }
      var p := reply.value;
      all := all + p.cards;
      if p.cursor.total < PageLimit {
        CrawlStops(read, req, done, before, gathered);
        return Ok(Crawled(page, all)), requests;
      }
      cursor := Some(NextCursor(p.cursor));
      if page > MaxPages {
        CrawlStops(read, req, done, before, gathered);
        return Ok(Crawled(page, all)), requests;
      }
      CrawlGoesOn(read, req, done, before, gathered);
    }
  }

  /** The loop's last turn: the request just sent was the last one, and the
      outcome is the failure or the pages gathered so far. */
  lemma CrawlStops(read: RequestCursor -> Result<Page>, req: RequestCursor, done: nat,
                   before: seq<RequestCursor>, gathered: seq<Json>)
    requires done <= MaxPages
    requires read(req).Fail? || read(req).value.cursor.total < PageLimit || done + 1 > MaxPages
    requires Requests(read, FirstPage, 0) == before + Requests(read, req, done)
    requires Crawl(read, FirstPage, 0) == Behind(gathered, Crawl(read, req, done))
    ensures Requests(read, FirstPage, 0) == before + [req]
    ensures read(req).Fail? ==> Crawl(read, FirstPage, 0) == Fail(read(req).message)
    ensures read(req).Ok? ==>
              Crawl(read, FirstPage, 0) == Ok(Crawled(done + 1, gathered + read(req).value.cards))
  {
    StopsAt(read, req, done);
  }

  /** A turn after which the loop goes on: the invariant holds for the next
      request, with one more request sent and one more page gathered. */
  lemma CrawlGoesOn(read: RequestCursor -> Result<Page>, req: RequestCursor, done: nat,
                    before: seq<RequestCursor>, gathered: seq<Json>)
    requires done < MaxPages
    requires read(req).Ok? && read(req).value.cursor.total >= PageLimit
    requires Requests(read, FirstPage, 0) == before + Requests(read, req, done)
    requires Crawl(read, FirstPage, 0) == Behind(gathered, Crawl(read, req, done))
    ensures var next := RequestFor(Some(NextCursor(read(req).value.cursor)));
            && Requests(read, FirstPage, 0) == (before + [req]) + Requests(read, next, done + 1)
            && Crawl(read, FirstPage, 0) == Behind(gathered + read(req).value.cards, Crawl(read, next, done + 1))
  {
    var next := RequestFor(Some(NextCursor(read(req).value.cursor)));
    GoesOnAfter(read, req, done);
    CrawledBehindTwice(gathered, read(req).value.cards, Crawl(read, next, done + 1));
    AppendOne(before, req, Requests(read, next, done + 1));
  }

  // ---------------------------------------------------------------------
  // Flattening the cards into rows

  datatype CardRow = CardRow(
    nmid: int, imtid: Option<int>, nmuuid: Json, subjectid: Option<int>, subjectname: Json,
    vendorcode: Json, brand: Json, title: Json, description: Json, needkiz: Json, video: Json,
    dim_length: Option<int>, dim_width: Option<int>, dim_height: Option<int>, dim_isvalid: Json)

  datatype PhotoRow = PhotoRow(nmid: int, big: Json, c246x328: Json, c516x688: Json, square: Json, tm: Json)

  datatype TagRow = TagRow(nmid: int, tag_id: Option<int>, name: Json, color: Json)

  datatype CharacteristicRow = CharacteristicRow(nmid: int, char_id: Option<int>, name: Json, value: Json)

  datatype SizeRow = SizeRow(chrtid: int, nmid: int, techsize: Json)

  datatype SkuRow = SkuRow(chrtid: int, sku: string)

  /** The six lists the loop fills. */
  datatype Rows = Rows(
    cards: seq<CardRow>, photos: seq<PhotoRow>, tags: seq<TagRow>,
    characteristics: seq<CharacteristicRow>, sizes: seq<SizeRow>, skus: seq<SkuRow>)

  const NoRows := Rows([], [], [], [], [], [])

  /** Every list of `a` followed by the same list of `b`. */
  function Plus(a: Rows, b: Rows): Rows {
    Rows(a.cards + b.cards, a.photos + b.photos, a.tags + b.tags,
         a.characteristics + b.characteristics, a.sizes + b.sizes, a.skus + b.skus)
  }

  /** `(v ?? []).forEach(..)`: a missing list is empty, and anything else that
      is not an array has no `forEach` and throws. */
  function ListOf(v: Json, expr: string): (r: Result<seq<Json>>)
    ensures Nullish(v) ==> r == Ok([])
    ensures v.JArray? ==> r == Ok(v.items)
    ensures r.Fail? <==> !Nullish(v) && !v.JArray?
  {
    if Nullish(v) then Ok([])
    else if v.JArray? then Ok(v.items)
    else Fail(expr + ".forEach is not a function")
  }

  /** One row per element, in order; the first element that is `null` throws
      when its first property `key` is read. */
  function MapRows<R>(items: seq<Json>, key: string, row: Json -> R): (r: Result<seq<R>>)
    ensures r.Ok? <==> forall i :: 0 <= i < |items| ==> !Nullish(items[i])
    ensures r.Ok? ==> |r.value| == |items| && forall i :: 0 <= i < |items| ==> r.value[i] == row(items[i])
    ensures r.Fail? ==> exists i :: 0 <= i < |items| && Nullish(items[i]) && r.message == ReadError(items[i], key)
  {
    if items == [] then Ok([])
    else if Nullish(items[0]) then Fail(ReadError(items[0], key))
    else
      var rest :- MapRows(items[1..], key, row);
      Ok([row(items[0])] + rest)
  }

  function CardRowOf(c: Json, nmid: int): CardRow {
    var dims := Prop(c, "dimensions");
    CardRow(nmid, AsBigint(Prop(c, "imtID")), OrNull(Prop(c, "nmUUID")), AsBigint(Prop(c, "subjectID")),
            OrNull(Prop(c, "subjectName")), OrNull(Prop(c, "vendorCode")), OrNull(Prop(c, "brand")),
            OrNull(Prop(c, "title")), OrNull(Prop(c, "description")), OrNull(Prop(c, "needKiz")),
            OrNull(Prop(c, "video")),
            AsBigint(OptProp(dims, "length")), AsBigint(OptProp(dims, "width")), AsBigint(OptProp(dims, "height")),
            OrNull(OptProp(dims, "isValid")))
  }

  function PhotoRowOf(nmid: int, p: Json): PhotoRow {
    PhotoRow(nmid, OrNull(Prop(p, "big")), OrNull(Prop(p, "c246x328")), OrNull(Prop(p, "c516x688")),
             OrNull(Prop(p, "square")), OrNull(Prop(p, "tm")))
  }

  function TagRowOf(nmid: int, t: Json): TagRow {
    TagRow(nmid, AsBigint(Prop(t, "id")), OrNull(Prop(t, "name")), OrNull(Prop(t, "color")))
  }

  function CharacteristicRowOf(nmid: int, ch: Json): CharacteristicRow {
    CharacteristicRow(nmid, AsBigint(Prop(ch, "id")), OrNull(Prop(ch, "name")), DeepSanitize(OrNull(Prop(ch, "value"))))
  }

  /** One sku row per element of `skus`, each printed with `String`. */
  function SkuRowsOf(chrtid: int, skus: seq<Json>): (r: seq<SkuRow>)
    ensures |r| == |skus| && forall i :: 0 <= i < |skus| ==> r[i] == SkuRow(chrtid, JsString(skus[i]))
  {
    seq(|skus|, i requires 0 <= i < |skus| => SkuRow(chrtid, JsString(skus[i])))
  }

  /** The rows of one size: a `null` size throws; a size whose `chrtID` does
      not read as an integer adds nothing; otherwise one size row, and one
      sku row per element of `skus` carrying the size's `chrtid`. */
  function SizeEntries(nmid: int, s: Json): (r: Result<(seq<SizeRow>, seq<SkuRow>)>)
    ensures r.Ok? ==> |r.value.0| <= 1 && forall i :: 0 <= i < |r.value.0| ==> r.value.0[i].nmid == nmid
    ensures Nullish(s) ==> r == Fail(ReadError(s, "chrtID"))
    ensures !Nullish(s) && AsBigint(Prop(s, "chrtID")).None? ==> r == Ok(([], []))
    ensures !Nullish(s) && AsBigint(Prop(s, "chrtID")).Some? ==>
              (r.Ok? <==> ListOf(Prop(s, "skus"), "(s.skus ?? [])").Ok?)
    ensures r.Ok? && AsBigint(Prop(s, "chrtID")).Some? ==>
              && r.value.0 == [SizeRow(AsBigint(Prop(s, "chrtID")).value, nmid, OrNull(Prop(s, "techSize")))]
              && r.value.1 == SkuRowsOf(AsBigint(Prop(s, "chrtID")).value, ListOf(Prop(s, "skus"), "(s.skus ?? [])").value)
  {
    var v :- Get(s, "chrtID");
    match AsBigint(v)
    case None => Ok(([], []))
    case Some(chrtid) =>
      var skus :- ListOf(Prop(s, "skus"), "(s.skus ?? [])");
      Ok(([SizeRow(chrtid, nmid, OrNull(Prop(s, "techSize")))], SkuRowsOf(chrtid, skus)))
  }

  /** The rows of every size of a card, in order; every sku row belongs to
      a size row of the card. */
  function SizesOf(nmid: int, sizes: seq<Json>): (r: Result<(seq<SizeRow>, seq<SkuRow>)>)
    ensures r.Ok? ==> (forall i :: 0 <= i < |r.value.0| ==> r.value.0[i].nmid == nmid)
    ensures r.Ok? ==> |r.value.0| <= |sizes|
    ensures r.Ok? ==> forall j :: 0 <= j < |r.value.1| ==> HasSize(r.value.0, r.value.1[j].chrtid)
  {
    if sizes == [] then Ok(([], []))
    else
      var first :- SizeEntries(nmid, sizes[0]);
      var rest :- SizesOf(nmid, sizes[1..]);
      EntrySkusHaveSize(nmid, sizes[0]);
      SkusStillHaveSize(first.0, first.1, rest.0, rest.1);
      SizeRowsStillCarry(nmid, first.0, rest.0);
      Ok((first.0 + rest.0, first.1 + rest.1))
  }

  /** Joining two groups of size rows that carry `nmid` gives rows that carry it. */
  lemma SizeRowsStillCarry(nmid: int, s1: seq<SizeRow>, s2: seq<SizeRow>)
    requires forall i :: 0 <= i < |s1| ==> s1[i].nmid == nmid
    requires forall i :: 0 <= i < |s2| ==> s2[i].nmid == nmid
    ensures forall i :: 0 <= i < |s1 + s2| ==> (s1 + s2)[i].nmid == nmid
  {
  }

  /** The sku rows of one size carry the `chrtid` of its size row. */
  lemma EntrySkusHaveSize(nmid: int, s: Json)
    requires SizeEntries(nmid, s).Ok?
    ensures var e := SizeEntries(nmid, s).value;
            forall j :: 0 <= j < |e.1| ==> HasSize(e.0, e.1[j].chrtid)
  {
    var e := SizeEntries(nmid, s).value;
    if e.1 != [] {
      assert e.0 != [] && forall j :: 0 <= j < |e.1| ==> e.1[j].chrtid == e.0[0].chrtid;
    }
  }

  /** Joining the rows of two groups of sizes keeps every sku row's size row. */
  lemma SkusStillHaveSize(s1: seq<SizeRow>, k1: seq<SkuRow>, s2: seq<SizeRow>, k2: seq<SkuRow>)
    requires forall j :: 0 <= j < |k1| ==> HasSize(s1, k1[j].chrtid)
    requires forall j :: 0 <= j < |k2| ==> HasSize(s2, k2[j].chrtid)
    ensures forall j :: 0 <= j < |k1 + k2| ==> HasSize(s1 + s2, (k1 + k2)[j].chrtid)
  {
    forall j | 0 <= j < |k1 + k2| ensures HasSize(s1 + s2, (k1 + k2)[j].chrtid) {
      if j < |k1| {
        var i :| 0 <= i < |s1| && s1[i].chrtid == k1[j].chrtid;
        assert (s1 + s2)[i] == s1[i];
      } else {
        var i :| 0 <= i < |s2| && s2[i].chrtid == k2[j - |k1|].chrtid;
        assert (s1 + s2)[|s1| + i] == s2[i];
      }
    }
  }

  /** Some size row carries `chrtid`. */
  predicate HasSize(rows: seq<SizeRow>, chrtid: int) {
    exists i :: 0 <= i < |rows| && rows[i].chrtid == chrtid
  }

  /** The number a card is filed under: its `nmID` read with `asBigint` once
      the card is sanitized (`None` also for a card that is not an object). */
  function NmidOf(raw: Json): Option<int> {
    var c := DeepSanitize(raw);
    if Nullish(c) then None else AsBigint(Prop(c, "nmID"))
  }

  /** What one card adds to the six lists. A card that sanitizes to `null`
      throws; a card without a usable `nmID` adds nothing; any other card adds
      exactly one card row, and every row it adds carries its number. */
  function CardContribution(raw: Json): (r: Result<Rows>)
    ensures Nullish(DeepSanitize(raw)) ==> r == Fail(ReadError(JNull, "nmID"))
    ensures !Nullish(DeepSanitize(raw)) && NmidOf(raw).None? ==> r == Ok(NoRows)
    ensures r.Ok? && NmidOf(raw).Some? ==>
              var n := NmidOf(raw).value;
              && r.value.cards == [CardRowOf(DeepSanitize(raw), n)]
              && (forall i :: 0 <= i < |r.value.photos| ==> r.value.photos[i].nmid == n)
              && (forall i :: 0 <= i < |r.value.tags| ==> r.value.tags[i].nmid == n)
              && (forall i :: 0 <= i < |r.value.characteristics| ==> r.value.characteristics[i].nmid == n)
              && (forall i :: 0 <= i < |r.value.sizes| ==> r.value.sizes[i].nmid == n)
              && (forall j :: 0 <= j < |r.value.skus| ==> HasSize(r.value.sizes, r.value.skus[j].chrtid))
  {
    var c := DeepSanitize(raw);
    var v :- Get(c, "nmID");
    match AsBigint(v)
    case None => Ok(NoRows)
    case Some(nmid) => CardRows(c, nmid)
  }

  /** The rows of a sanitized card filed under `nmid`: one card row, and
      photo, tag, characteristic and size rows that all carry `nmid`. */
  function CardRows(c: Json, nmid: int): (r: Result<Rows>)
    ensures r.Ok? ==>
              && r.value.cards == [CardRowOf(c, nmid)]
              && (forall i :: 0 <= i < |r.value.photos| ==> r.value.photos[i].nmid == nmid)
              && (forall i :: 0 <= i < |r.value.tags| ==> r.value.tags[i].nmid == nmid)
              && (forall i :: 0 <= i < |r.value.characteristics| ==> r.value.characteristics[i].nmid == nmid)
              && (forall i :: 0 <= i < |r.value.sizes| ==> r.value.sizes[i].nmid == nmid)
              && (forall j :: 0 <= j < |r.value.skus| ==> HasSize(r.value.sizes, r.value.skus[j].chrtid))
  {
    var photos :- PhotoRows(c, nmid);
    var tags :- TagRows(c, nmid);
    var chars :- CharacteristicRows(c, nmid);
    var sized :- SizeRows(c, nmid);
    Ok(Rows([CardRowOf(c, nmid)], photos, tags, chars, sized.0, sized.1))
  }

  /** `(c.photos ?? []).forEach(...)`: one photo row per photo, each carrying `nmid`. */
  function PhotoRows(c: Json, nmid: int): (r: Result<seq<PhotoRow>>)
    ensures r.Ok? ==> forall i :: 0 <= i < |r.value| ==> r.value[i].nmid == nmid
  {
    var list :- ListOf(Prop(c, "photos"), "(c.photos ?? [])");
    MapRows(list, "big", p => PhotoRowOf(nmid, p))
  }

  /** `(c.tags ?? []).forEach(...)`: one tag row per tag, each carrying `nmid`. */
  function TagRows(c: Json, nmid: int): (r: Result<seq<TagRow>>)
    ensures r.Ok? ==> forall i :: 0 <= i < |r.value| ==> r.value[i].nmid == nmid
  {
    var list :- ListOf(Prop(c, "tags"), "(c.tags ?? [])");
    MapRows(list, "id", t => TagRowOf(nmid, t))
  }

  /** `(c.characteristics ?? []).forEach(...)`: one row per characteristic,
      each carrying `nmid`. */
  function CharacteristicRows(c: Json, nmid: int): (r: Result<seq<CharacteristicRow>>)
    ensures r.Ok? ==> forall i :: 0 <= i < |r.value| ==> r.value[i].nmid == nmid
  {
    var list :- ListOf(Prop(c, "characteristics"), "(c.characteristics ?? [])");
    MapRows(list, "id", ch => CharacteristicRowOf(nmid, ch))
  }

  /** `(c.sizes ?? []).forEach(...)`: the size rows carry `nmid`, and every
      sku row belongs to one of them. */
  function SizeRows(c: Json, nmid: int): (r: Result<(seq<SizeRow>, seq<SkuRow>)>)
    ensures r.Ok? ==> forall i :: 0 <= i < |r.value.0| ==> r.value.0[i].nmid == nmid
    ensures r.Ok? ==> forall j :: 0 <= j < |r.value.1| ==> HasSize(r.value.0, r.value.1[j].chrtid)
  {
    var list :- ListOf(Prop(c, "sizes"), "(c.sizes ?? [])");
    SizesOf(nmid, list)
  }

  /** All cards, in order; the first card that throws ends the import. */
  function AllContributions(cards: seq<Json>): Result<Rows> {
    if cards == [] then Ok(NoRows)
    else
      var first :- CardContribution(cards[0]);
      var rest :- AllContributions(cards[1..]);
      Ok(Plus(first, rest))
  }

  /** Rows already gathered, put in front of what the remaining cards add. */
  function RowsBehind(acc: Rows, r: Result<Rows>): Result<Rows> {
    if r.Fail? then r else Ok(Plus(acc, r.value))
  }

  /** Nothing gathered yet changes nothing. */
  lemma NothingBehind(r: Result<Rows>)
    ensures RowsBehind(NoRows, r) == r
  {
    if r.Ok? {
      var v := r.value;
      assert Plus(NoRows, v) == v;
    }
  }

  /** Rows gathered in two steps are the rows of both steps, in order. */
  lemma BehindTwice(acc: Rows, rows: Rows, r: Result<Rows>)
    ensures RowsBehind(acc, RowsBehind(rows, r)) == RowsBehind(Plus(acc, rows), r)
  {
    if r.Ok? {
      var v := r.value;
      assert Plus(acc, Plus(rows, v)) == Plus(Plus(acc, rows), v);
    }
  }

  /** The cards from index `i` on: card `i` and then the rest. */
  lemma ContributionsFrom(all: seq<Json>, i: nat)
    requires i < |all|
    ensures CardContribution(all[i]).Fail? ==> AllContributions(all[i..]) == Fail(CardContribution(all[i]).message)
    ensures CardContribution(all[i]).Ok? ==>
              AllContributions(all[i..]) == RowsBehind(CardContribution(all[i]).value, AllContributions(all[i + 1..]))
  {
    assert all[i..][0] == all[i];
    assert all[i..][1..] == all[i + 1..];
  }

  /** The flattening loop of `POST`, pushing onto six lists card by card. */
  method Flatten(all: seq<Json>) returns (r: Result<Rows>)
    ensures r == AllContributions(all)
  {
    var cardsRows: seq<CardRow> := [];
    var photosRows: seq<PhotoRow> := [];
    var tagsRows: seq<TagRow> := [];
    var charsRows: seq<CharacteristicRow> := [];
    var sizesRows: seq<SizeRow> := [];
    var skusRows: seq<SkuRow> := [];
    var i := 0;
    assert all[0..] == all;
    NothingBehind(AllContributions(all));
    while i < |all|
      invariant 0 <= i <= |all|
      invariant AllContributions(all) ==
                RowsBehind(Rows(cardsRows, photosRows, tagsRows, charsRows, sizesRows, skusRows),
                           AllContributions(all[i..]))
    {
      var c := CardContribution(all[i]);
      ContributionsFrom(all, i);
      if c.Fail? {
        return Fail(c.message);
      }
      BehindTwice(Rows(cardsRows, photosRows, tagsRows, charsRows, sizesRows, skusRows), c.value,
                  AllContributions(all[i + 1..]));
      cardsRows := cardsRows + c.value.cards;
      photosRows := photosRows + c.value.photos;
      tagsRows := tagsRows + c.value.tags;
      charsRows := charsRows + c.value.characteristics;
      sizesRows := sizesRows + c.value.sizes;
      skusRows := skusRows + c.value.skus;
      i := i + 1;
    }
    assert all[i..] == [];
    r := Ok(Rows(cardsRows, photosRows, tagsRows, charsRows, sizesRows, skusRows));
    assert Plus(r.value, NoRows) == r.value;
  }

  /** The numbers of the cards that are kept, in order. */
  function KeptNmids(cards: seq<Json>): seq<int> {
    if cards == [] then []
    else (if NmidOf(cards[0]).Some? then [NmidOf(cards[0]).value] else []) + KeptNmids(cards[1..])
  }

  function CardNmids(rows: seq<CardRow>): (ns: seq<int>)
    ensures |ns| == |rows| && forall i :: 0 <= i < |rows| ==> ns[i] == rows[i].nmid
  {
    seq(|rows|, i requires 0 <= i < |rows| => rows[i].nmid)
  }

  lemma CardNmidsAppend(a: seq<CardRow>, b: seq<CardRow>)
    ensures CardNmids(a + b) == CardNmids(a) + CardNmids(b)
  {
  }

  /** The card rows one card adds: its number if it is kept, nothing otherwise. */
  lemma CardNmidsOfCard(c: Json)
    requires CardContribution(c).Ok?
    ensures CardNmids(CardContribution(c).value.cards) == if NmidOf(c).Some? then [NmidOf(c).value] else []
  {
  }

  /** When the flattening succeeds there is exactly one card row per kept
      card, in card order: `total_cards` counts the cards with a usable `nmID`. */
  lemma {:induction false} CardRowsFollowKeptCards(cards: seq<Json>)
    requires AllContributions(cards).Ok?
    ensures CardNmids(AllContributions(cards).value.cards) == KeptNmids(cards)
  {
    if cards != [] {
      var first := CardContribution(cards[0]).value;
      CardRowsFollowKeptCards(cards[1..]);
      var rest := AllContributions(cards[1..]).value;
      assert AllContributions(cards).value.cards == first.cards + rest.cards;
      CardNmidsAppend(first.cards, rest.cards);
      CardNmidsOfCard(cards[0]);
    }
  }

  /** A card keeps the same number whether read raw or sanitized: for an
      object card, `NmidOf` is `asBigint` of the raw `nmID` field. */
  lemma NmidOfRawField(fields: seq<(string, Json)>)
    ensures NmidOf(JObject(fields)) == AsBigint(FieldValue(fields, "nmID"))
  {
    var c := DeepSanitize(JObject(fields));
    assert c.JObject? && !Nullish(c);
    assert Prop(c, "nmID") == FieldValue(c.fields, "nmID");
    assert NmidOf(JObject(fields)) == AsBigint(FieldValue(c.fields, "nmID"));
    SanitizedFieldReadsSame(fields, "nmID");
  }

  /** Sanitizing an object does not change what `asBigint` reads from its field `k`. */
  lemma {:induction false} SanitizedFieldReadsSame(fields: seq<(string, Json)>, k: string)
    ensures AsBigint(FieldValue(DeepSanitize(JObject(fields)).fields, k)) == AsBigint(FieldValue(fields, k))
    decreases |fields|
  {
    if fields != [] {
      var n := |fields|;
      var cf := DeepSanitize(JObject(fields)).fields;
      var init := fields[..n - 1];
      var cInit := DeepSanitize(JObject(init)).fields;
      assert cf[..n - 1] == cInit;
      if fields[n - 1].0 == k {
        assert FieldValue(cf, k) == DeepSanitize(fields[n - 1].1);
        AsBigintAfterSanitize(fields[n - 1].1);
      } else {
        assert FieldValue(cf, k) == FieldValue(cInit, k);
        SanitizedFieldReadsSame(init, k);
      }
    }
  }

  // ---------------------------------------------------------------------
  // Chunked inserts

  const ChunkSize := 500

  /** `rows` cut into consecutive slices of `size` (the last one shorter). */
  function Chunks<R>(rows: seq<R>, size: nat): (cs: seq<seq<R>>)
    requires size > 0
    ensures forall k :: 0 <= k < |cs| ==> 0 < |cs[k]| <= size
    decreases |rows|
  {
    if rows == [] then []
    else if |rows| <= size then [rows]
    else [rows[..size]] + Chunks(rows[size..], size)
  }

  function Concat<R>(cs: seq<seq<R>>): seq<R> {
    if cs == [] then [] else cs[0] + Concat(cs[1..])
  }

  /** Joining the chunks back gives the rows. */
  lemma {:induction false} ChunksConcat<R>(rows: seq<R>, size: nat)
    requires size > 0
    ensures Concat(Chunks(rows, size)) == rows
    decreases |rows|
  {
    if |rows| > size {
      ChunksConcat(rows[size..], size);
      assert rows[..size] + rows[size..] == rows;
    }
  }

  /** Adding the divisor adds one to the quotient. */
  lemma QuotientStep(x: nat, d: nat)
    requires d > 0
    ensures (x + d) / d == x / d + 1
  {
    DivBounds(x, d);
    DivBounds(x + d, d);
    var q, q2 := x / d, (x + d) / d;
    assert q * d <= x < (q + 1) * d;
    assert q2 * d <= x + d < (q2 + 1) * d;
    assert (q + 1) * d == q * d + d && (q + 2) * d == (q + 1) * d + d;
  }

  /** A number from the divisor up to below twice it holds the divisor once. */
  lemma QuotientOne(x: nat, d: nat)
    requires 0 < d <= x < 2 * d
    ensures x / d == 1
  {
  }

  /** Every chunk but the last is full, and there are ceil(|rows| / size) of them. */
  lemma {:induction false} ChunksCount<R>(rows: seq<R>, size: nat)
    requires size > 0
    ensures |Chunks(rows, size)| == (|rows| + size - 1) / size
    ensures forall k :: 0 <= k < |Chunks(rows, size)| - 1 ==> |Chunks(rows, size)[k]| == size
    decreases |rows|
  {
    if |rows| > size {
      var rest := rows[size..];
      ChunksCount(rest, size);
      QuotientStep(|rest| + size - 1, size);
      assert |rest| + size - 1 + size == |rows| + size - 1;
      var cs := Chunks(rows, size);
      assert cs == [rows[..size]] + Chunks(rest, size);
      forall k | 0 <= k < |cs| - 1
        ensures |cs[k]| == size
      {
        if k > 0 {
          assert cs[k] == Chunks(rest, size)[k - 1];
        }
      }
    } else if rows != [] {
      QuotientOne(|rows| + size - 1, size);
    }
  }

  /** The message of the first chunk the store refuses, if any. */
  function FirstFailure<R>(cs: seq<seq<R>>, insert: seq<R> -> Option<string>): (f: Option<string>)
    ensures f.None? <==> forall k :: 0 <= k < |cs| ==> insert(cs[k]).None?
  {
    if cs == [] then None
    else if insert(cs[0]).Some? then insert(cs[0])
    else FirstFailure(cs[1..], insert)
  }

  /** `rows` from index `i` on. */
  function From<R>(rows: seq<R>, i: nat): seq<R> {
    if i >= |rows| then [] else rows[i..]
  }

  lemma ChunksStep<R>(rows: seq<R>, i: nat, size: nat)
    requires size > 0 && i < |rows|
    ensures Chunks(From(rows, i), size) ==
            [rows[i..if i + size < |rows| then i + size else |rows|]] + Chunks(From(rows, i + size), size)
  {
    var s := rows[i..];
    assert From(rows, i) == s && s != [];
    if |s| > size {
      assert s[..size] == rows[i..i + size];
      assert s[size..] == rows[i + size..] == From(rows, i + size);
    } else {
      assert s == rows[i..|rows|];
      assert From(rows, i + size) == [];
    }
  }

  /** The first refusal over two runs of chunks is the first run's, if any. */
  lemma {:induction false} FirstFailureConcat<R>(a: seq<seq<R>>, b: seq<seq<R>>, insert: seq<R> -> Option<string>)
    ensures FirstFailure(a + b, insert) == if FirstFailure(a, insert).Some? then FirstFailure(a, insert) else FirstFailure(b, insert)
    decreases |a|
  {
    if a != [] {
      assert (a + b)[0] == a[0];
      assert (a + b)[1..] == a[1..] + b;
      FirstFailureConcat(a[1..], b, insert);
    } else {
      assert a + b == b;
    }
  }

  /** The chunks sent to the store: all of them up to and including the
      first one it refuses. Every chunk before the last sent one was stored;
      the last one sent was refused exactly when some chunk is. */
  function Attempted<R>(cs: seq<seq<R>>, insert: seq<R> -> Option<string>): (sent: seq<seq<R>>)
    ensures sent <= cs
    ensures FirstFailure(cs, insert).None? ==> sent == cs
    ensures FirstFailure(cs, insert).Some? ==>
              && sent != []
              && insert(sent[|sent| - 1]) == FirstFailure(cs, insert)
              && forall k :: 0 <= k < |sent| - 1 ==> insert(sent[k]).None?
  {
    if cs == [] then []
    else if insert(cs[0]).Some? then [cs[0]]
    else
      var rest := Attempted(cs[1..], insert);
      var sent := [cs[0]] + rest;
      assert cs == [cs[0]] + cs[1..];
      assert sent <= cs;
      assert FirstFailure(cs, insert) == FirstFailure(cs[1..], insert);
      assert forall k :: 1 <= k < |sent| ==> sent[k] == rest[k - 1];
      sent
  }

  /** Chunks the store accepts do not stop the sending. */
  lemma {:induction false} AttemptedConcat<R>(a: seq<seq<R>>, b: seq<seq<R>>, insert: seq<R> -> Option<string>)
    requires FirstFailure(a, insert).None?
    ensures Attempted(a + b, insert) == a + Attempted(b, insert)
    decreases |a|
  {
    if a != [] {
      var ab := a + b;
      assert ab[0] == a[0] && ab[1..] == a[1..] + b;
      assert insert(a[0]).None?;
      assert FirstFailure(a[1..], insert).None?;
      AttemptedConcat(a[1..], b, insert);
      assert Attempted(ab, insert) == [a[0]] + Attempted(a[1..] + b, insert);
      assert a == [a[0]] + a[1..];
    } else {
      assert a + b == b;
    }
  }

  /** A refused chunk after stored ones is the first refusal, and the last
      chunk sent. */
  lemma RefusedChunkEnds<R>(before: seq<seq<R>>, part: seq<R>, rest: seq<seq<R>>, insert: seq<R> -> Option<string>)
    requires FirstFailure(before, insert).None? && insert(part).Some?
    ensures FirstFailure(before + ([part] + rest), insert) == insert(part)
    ensures Attempted(before + ([part] + rest), insert) == before + [part]
  {
    FirstFailureConcat(before, [part] + rest, insert);
    AttemptedConcat(before, [part] + rest, insert);
    assert ([part] + rest)[0] == part;
  }

  /** A stored chunk after stored ones leaves no refusal so far. */
  lemma StoredChunkContinues<R>(before: seq<seq<R>>, part: seq<R>, insert: seq<R> -> Option<string>)
    requires FirstFailure(before, insert).None? && insert(part).None?
    ensures FirstFailure(before + [part], insert).None?
  {
    assert [part][0] == part && [part][1..] == [];
    assert FirstFailure([part], insert) == None;
    FirstFailureConcat(before, [part], insert);
  }

  lemma AppendOne<T>(a: seq<T>, x: T, b: seq<T>)
    ensures (a + [x]) + b == a + ([x] + b)
  {
  }

  /** `chunkInsert`: send consecutive slices of at most `size` rows, in
      order, and stop at the first slice the store refuses. Returns the
      slices sent and the refusal, if any. */
  method ChunkInsert<R>(rows: seq<R>, size: nat, insert: seq<R> -> Option<string>)
    returns (sent: seq<seq<R>>, failure: Option<string>)
    requires size > 0
    ensures failure == FirstFailure(Chunks(rows, size), insert)
    ensures sent == Attempted(Chunks(rows, size), insert)
  {
    sent := [];
    var i: nat := 0;
    assert From(rows, 0) == rows;
    assert [] + Chunks(rows, size) == Chunks(rows, size);
    while i < |rows|
      invariant sent + Chunks(From(rows, i), size) == Chunks(rows, size)
      invariant FirstFailure(sent, insert).None?
      decreases |rows| - i
    {
      var part := rows[i..if i + size < |rows| then i + size else |rows|];
      ChunksStep(rows, i, size);
      var rest := Chunks(From(rows, i + size), size);
      ghost var before := sent;
      assert before + ([part] + rest) == Chunks(rows, size);
      sent := sent + [part];
      var error := insert(part);
      if error.Some? {
        RefusedChunkEnds(before, part, rest, insert);
        return sent, error;
      }
      StoredChunkContinues(before, part, insert);
      AppendOne(before, part, rest);
      i := i + size;
      assert rest == Chunks(From(rows, i), size);
    }
    assert From(rows, i) == [];
    assert sent == Chunks(rows, size);
    failure := None;
  }

  // ---------------------------------------------------------------------
  // The endpoint

  /** How the database answers: `clear` the deletion of every row of a
      table (`None` for success, including the "no rows" code PGRST116),
      and one function per table for the insert of a chunk (`None` for
      success, or the error message). */
  datatype Store = Store(
    clear: string -> Option<string>,
    cards: seq<CardRow> -> Option<string>,
    photos: seq<PhotoRow> -> Option<string>,
    tags: seq<TagRow> -> Option<string>,
    characteristics: seq<CharacteristicRow> -> Option<string>,
    sizes: seq<SizeRow> -> Option<string>,
    skus: seq<SkuRow> -> Option<string>)

  datatype Counts = Counts(cards: nat, photos: nat, tags: nat, characteristics: nat, sizes: nat, skus: nat)

  datatype ImportResponse =
    | ImportError(status: int, error: string)
    | Imported(pages: nat, total_cards: nat, inserted: Counts)

  const UnknownErrorMessage := "WB импорт: неизвестная ошибка"

  /** The message `chunkInsert` throws for a refused chunk (without the sample rows). */
  function InsertFailedMessage(table: string, message: string): string {
    "Insert failed for table \"" + table + "\": " + message + ". Sample rows: "
  }

  /** The six deletions before the inserts, in the route's order; the
      first one the database refuses ends the import. */
  function ClearOutcome(store: Store): Option<string> {
    if store.clear("wb_size_skus").Some? then store.clear("wb_size_skus")
    else if store.clear("wb_sizes").Some? then store.clear("wb_sizes")
    else if store.clear("wb_photos").Some? then store.clear("wb_photos")
    else if store.clear("wb_tags").Some? then store.clear("wb_tags")
    else if store.clear("wb_characteristics").Some? then store.clear("wb_characteristics")
    else store.clear("wb_cards")
  }

  /** The six inserts in the route's order; the first refusal ends the import. */
  function InsertOutcome(store: Store, rows: Rows): Option<string> {
    var f1 := FirstFailure(Chunks(rows.cards, ChunkSize), store.cards);
    var f2 := FirstFailure(Chunks(rows.photos, ChunkSize), store.photos);
    var f3 := FirstFailure(Chunks(rows.tags, ChunkSize), store.tags);
    var f4 := FirstFailure(Chunks(rows.characteristics, ChunkSize), store.characteristics);
    var f5 := FirstFailure(Chunks(rows.sizes, ChunkSize), store.sizes);
    var f6 := FirstFailure(Chunks(rows.skus, ChunkSize), store.skus);
    if f1.Some? then Some(InsertFailedMessage("wb_cards", f1.value))
    else if f2.Some? then Some(InsertFailedMessage("wb_photos", f2.value))
    else if f3.Some? then Some(InsertFailedMessage("wb_tags", f3.value))
    else if f4.Some? then Some(InsertFailedMessage("wb_characteristics", f4.value))
    else if f5.Some? then Some(InsertFailedMessage("wb_sizes", f5.value))
    else if f6.Some? then Some(InsertFailedMessage("wb_size_skus", f6.value))
    else None
  }

  /** `e?.message || 'WB импорт: неизвестная ошибка'`. */
  function Thrown(message: string): (m: string)
    ensures m != ""
  {
    if message != "" then message else UnknownErrorMessage
  }

  function CountsOf(rows: Rows): Counts {
    Counts(|rows.cards|, |rows.photos|, |rows.tags|, |rows.characteristics|, |rows.sizes|, |rows.skus|)
  }

  predicate TokenUsable(rawToken: string) {
    NormalizeToken(rawToken) != "" && IsAscii(NormalizeToken(rawToken))
  }

  /** The six deletions of the route, in its order: stops at the first one
      the database refuses and returns its message. */
  method ClearTables(store: Store) returns (error: Option<string>)
    ensures error == ClearOutcome(store)
  {
    var cleared1 := store.clear("wb_size_skus");
    if cleared1.Some? {
      return cleared1;
    }
    var cleared2 := store.clear("wb_sizes");
    if cleared2.Some? {
      return cleared2;
    }
    var cleared3 := store.clear("wb_photos");
    if cleared3.Some? {
      return cleared3;
    }
    var cleared4 := store.clear("wb_tags");
    if cleared4.Some? {
      return cleared4;
    }
    var cleared5 := store.clear("wb_characteristics");
    if cleared5.Some? {
      return cleared5;
    }
    var cleared6 := store.clear("wb_cards");
    if cleared6.Some? {
      return cleared6;
    }
    return None;
  }

  /** The six chunked inserts of the route, in its order: stops at the first
      chunk the database refuses and returns the message thrown for it. */
  method InsertTables(store: Store, rows: Rows) returns (error: Option<string>)
    ensures error == InsertOutcome(store, rows)
  {
    var sent1, failure1 := ChunkInsert(rows.cards, ChunkSize, store.cards);
    if failure1.Some? {
      return Some(InsertFailedMessage("wb_cards", failure1.value));
    }
    var sent2, failure2 := ChunkInsert(rows.photos, ChunkSize, store.photos);
    if failure2.Some? {
      return Some(InsertFailedMessage("wb_photos", failure2.value));
    }
    var sent3, failure3 := ChunkInsert(rows.tags, ChunkSize, store.tags);
    if failure3.Some? {
      return Some(InsertFailedMessage("wb_tags", failure3.value));
    }
    var sent4, failure4 := ChunkInsert(rows.characteristics, ChunkSize, store.characteristics);
    if failure4.Some? {
      return Some(InsertFailedMessage("wb_characteristics", failure4.value));
    }
    var sent5, failure5 := ChunkInsert(rows.sizes, ChunkSize, store.sizes);
    if failure5.Some? {
      return Some(InsertFailedMessage("wb_sizes", failure5.value));
    }
    var sent6, failure6 := ChunkInsert(rows.skus, ChunkSize, store.skus);
    if failure6.Some? {
      return Some(InsertFailedMessage("wb_size_skus", failure6.value));
    }
    return None;
  }

  /** `POST /api/wb/cards/import`. */
  method Import(rawToken: string, fetch: RequestCursor -> HttpReply, store: Store) returns (response: ImportResponse)
    ensures NormalizeToken(rawToken) == "" ==> response == ImportError(500, TokenMissingMessage)
    ensures NormalizeToken(rawToken) != "" && !IsAscii(NormalizeToken(rawToken)) ==>
              response == ImportError(400, TokenCharsMessage)
    ensures TokenUsable(rawToken) && Crawl(FetchPage(fetch), FirstPage, 0).Fail? ==>
              response == ImportError(500, Thrown(Crawl(FetchPage(fetch), FirstPage, 0).message))
    ensures TokenUsable(rawToken) && Crawl(FetchPage(fetch), FirstPage, 0).Ok? ==>
              var crawled := Crawl(FetchPage(fetch), FirstPage, 0).value;
              var rows := AllContributions(crawled.cards);
              var cleared := ClearOutcome(store);
              && (rows.Fail? ==> response == ImportError(500, Thrown(rows.message)))
              && (rows.Ok? && cleared.Some? ==> response == ImportError(500, Thrown(cleared.value)))
              && (rows.Ok? && cleared.None? && InsertOutcome(store, rows.value).Some? ==>
                    response == ImportError(500, Thrown(InsertOutcome(store, rows.value).value)))
              && (rows.Ok? && cleared.None? && InsertOutcome(store, rows.value).None? ==>
                    response == Imported(crawled.pages, |rows.value.cards|, CountsOf(rows.value)))
    ensures response.Imported? ==>
              && 1 <= response.pages <= MaxPages + 1
              && response.total_cards == response.inserted.cards
              && response.total_cards == |KeptNmids(Crawl(FetchPage(fetch), FirstPage, 0).value.cards)|
  {
    var token := NormalizeToken(rawToken);
    if token == "" {
      return ImportError(500, TokenMissingMessage);
    }
    if !IsAscii(token) {
      return ImportError(400, TokenCharsMessage);
    }
    var crawled, requests := FetchAll(FetchPage(fetch));
    if crawled.Fail? {
      return ImportError(500, Thrown(crawled.message));
    }
    var flattened := Flatten(crawled.value.cards);
    if flattened.Fail? {
      return ImportError(500, Thrown(flattened.message));
    }
    var rows := flattened.value;
    CardRowsFollowKeptCards(crawled.value.cards);
    var cleared := ClearTables(store);
    if cleared.Some? {
      return ImportError(500, Thrown(cleared.value));
    }
    var refused := InsertTables(store, rows);
    if refused.Some? {
      return ImportError(500, Thrown(refused.value));
    }
    response := Imported(crawled.value.pages, |rows.cards|, CountsOf(rows));
  }
}
