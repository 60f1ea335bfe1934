/** The AO side of the dispatcher (internal/recovery/ao_http.go) with HTTP and JSON abstracted to the
    decoded replies: the paged search for a turn, the live turns, Stop, and the classification of a
    delivery's outcome. */
module AoAdapter {
  import opened CheckpointModel
  import opened DispatcherMachine
  import opened TextTools

  datatype Turn = Turn(id: string, providerTurnID: string, state: string)

  datatype Message = Message(turnID: string, role: string, text: string)

  datatype Page = Page(turns: seq<Turn>, messages: seq<Message>, oldest: int, more: bool)

  /** One GET of the conversation; `Broken` is a transport error, a status other than 200 or a body
      that does not decode. */
  datatype Fetch = Broken(code: int) | Snapshot(page: Page)

  /** The conversation as a server answers it, by the cursor `beforeSequence`; 0 asks for the newest
      page. */
  type Server = int -> Fetch

  datatype SessionRead = SessionBroken(code: int) | SessionMissing | SessionPresent

  const PAGE_LIMIT := 1000
  const NO_ADVANCE := ErrExternal(-1)
  const LIMIT_EXCEEDED := ErrExternal(-2)

  // ----- the flat history behind the pages -----

  datatype Walk = Complete(pages: seq<Page>) | Cut(pages: seq<Page>, err: Error)

  /** The page does not lead to an older one. */
  predicate Stuck(before: int, page: Page) {
    page.oldest <= 0 || (before > 0 && page.oldest >= before)
  }

  function WalkFrom(server: Server, before: int, limit: nat): Walk
    decreases limit
  {
    if limit == 0 then Cut([], LIMIT_EXCEEDED)
    else match server(before)
      case Broken(code) => Cut([], ErrExternal(code))
      case Snapshot(page) =>
        if !page.more then Complete([page])
        else if Stuck(before, page) then Cut([page], NO_ADVANCE)
        else After([page], WalkFrom(server, page.oldest, limit - 1))
  }

  function After(seen: seq<Page>, w: Walk): Walk {
    w.(pages := seen + w.pages)
  }

  /** A turn with the page it was read from. */
  datatype Entry = Entry(turn: Turn, page: Page)

  function Entries(page: Page): (es: seq<Entry>)
    ensures |es| == |page.turns|
    ensures forall i :: 0 <= i < |es| ==> es[i] == Entry(page.turns[i], page)
  {
    seq(|page.turns|, i requires 0 <= i < |page.turns| => Entry(page.turns[i], page))
  }

  function Flat(pages: seq<Page>): seq<Entry> {
    if pages == [] then [] else Entries(pages[0]) + Flat(pages[1..])
  }

  lemma {:induction false} FlatAppend(a: seq<Page>, b: seq<Page>)
    ensures Flat(a + b) == Flat(a) + Flat(b)
  {
    if a == [] {
      assert a + b == b;
    } else {
      assert (a + b)[1..] == a[1..] + b;
      FlatAppend(a[1..], b);
    }
  }

  predicate Matches(turn: Turn, handle: string) {
    turn.id == handle || (turn.providerTurnID != "" && turn.providerTurnID == TrimPrefix(handle, "provider:"))
  }

  /** A turn is known by its own identifier or by its provider's, with or without the provider's mark in
      front; a handle with the mark does not find a turn whose provider calls it by the marked name. */
  lemma MatchesExactly(turn: Turn, handle: string)
    ensures Matches(turn, handle)
            <==> || turn.id == handle
                 || (&& turn.providerTurnID != ""
                     && (|| handle == "provider:" + turn.providerTurnID
                         || (handle == turn.providerTurnID && !("provider:" <= handle))))
  {
    if "provider:" <= handle {
      assert handle == "provider:" + handle[9..];
    }
  }

  /** `i` is the first entry that matches. */
  predicate FirstMatch(es: seq<Entry>, handle: string, i: int) {
    && 0 <= i < |es|
    && Matches(es[i].turn, handle)
    && forall j :: 0 <= j < i ==> !Matches(es[j].turn, handle)
  }

  predicate NoMatch(es: seq<Entry>, handle: string) {
    forall j :: 0 <= j < |es| ==> !Matches(es[j].turn, handle)
  }

  function MapTurnState(state: string): (d: DeliveryState)
    ensures d.DeliveryAccepted? || d.DeliveryCompleted? || d.DeliveryRejected? || d.DeliveryStopped?
            || d.DeliveryNotFound?
  {
    var s := ToLower(TrimSpace(state));
    if s == "queued" || s == "running" || s == "recovered" then DeliveryAccepted
    else if s == "completed" then DeliveryCompleted
    else if s == "failed" then DeliveryRejected
    else if s == "cancelled" || s == "interrupted" then DeliveryStopped
    else DeliveryNotFound
  }

  /** Which texts mean which state, whatever blanks surround them and however their letters are cased. */
  lemma MapTurnStateExactly(state: string)
    ensures MapTurnState(state).DeliveryAccepted?
            <==> Spells(state, "queued") || Spells(state, "running") || Spells(state, "recovered")
    ensures MapTurnState(state).DeliveryCompleted? <==> Spells(state, "completed")
    ensures MapTurnState(state).DeliveryRejected? <==> Spells(state, "failed")
    ensures MapTurnState(state).DeliveryStopped? <==> Spells(state, "cancelled") || Spells(state, "interrupted")
  {
    hide Spells, ToLower, TrimSpace;
    NormalizedExactly(state, "queued");
    NormalizedExactly(state, "running");
    NormalizedExactly(state, "recovered");
    NormalizedExactly(state, "completed");
    NormalizedExactly(state, "failed");
    NormalizedExactly(state, "cancelled");
    NormalizedExactly(state, "interrupted");
    DifferentWords();
  }

  lemma DifferentWords()
    ensures |"queued"| == 6 == |"failed"| && "queued"[0] != "failed"[0]
    ensures |"running"| == 7 && |"interrupted"| == 11
    ensures |"recovered"| == |"completed"| == |"cancelled"| == 9
    ensures "recovered"[0] == 'r' && "completed"[1] == 'o' && "cancelled"[1] == 'a' && "completed"[0] == 'c'
            && "cancelled"[0] == 'c'
  {
  }

  function LiveIDs(es: seq<Entry>): seq<string> {
    if es == [] then []
    else (if MapTurnState(es[0].turn.state).DeliveryAccepted? then [es[0].turn.id] else []) + LiveIDs(es[1..])
  }

  lemma {:induction false} LiveIDsAppend(a: seq<Entry>, b: seq<Entry>)
    ensures LiveIDs(a + b) == LiveIDs(a) + LiveIDs(b)
  {
    if a == [] {
      assert a + b == b;
    } else {
      assert (a + b)[1..] == a[1..] + b;
      LiveIDsAppend(a[1..], b);
    }
  }

  // ----- receipts -----

  const RECEIPT_PREFIX := "TASK_RECEIPT "

  type Decoder = string -> Option<TaskReceipt>

  /** What a line of text yields as a receipt. */
  function LineReceipt(decode: Decoder, line: string): Option<TaskReceipt> {
    var trimmed := TrimSpace(line);
    if RECEIPT_PREFIX <= trimmed then decode(TrimPrefix(trimmed, RECEIPT_PREFIX)) else None
  }

  /** What stands behind the mark, between blanks, is decoded. */
  lemma ReceiptLineIsRead(decode: Decoder, before: string, body: string, after: string)
    requires Blank(before) && Blank(after) && body != "" && !IsSpace(body[|body| - 1])
    ensures LineReceipt(decode, before + "TASK_RECEIPT " + body + after) == decode(body)
  {
    var marked := "TASK_RECEIPT " + body;
    var line := before + "TASK_RECEIPT " + body + after;
    assert line == before + (marked + after) && marked[0] == 'T';
    assert line[..|before|] == before && line[|before|..] == marked + after;
    TrimLeftStops(line, |before|);
    assert (marked + after)[|marked|..] == after && (marked + after)[..|marked|] == marked;
    assert (marked + after)[|marked| - 1] == body[|body| - 1];
    TrimRightStops(marked + after, |marked|);
    assert RECEIPT_PREFIX <= marked && marked[|RECEIPT_PREFIX|..] == body;
  }

  /** The message speaks for the turn and one of its lines is a receipt. */
  predicate Certifies(decode: Decoder, m: Message, turnID: string) {
    && m.turnID == turnID && m.role == "assistant"
    && exists k :: 0 <= k < |Split(m.text, '\n')| && LineReceipt(decode, Split(m.text, '\n')[k]).Some?
  }

  /** `r` comes from the first receipt line of the message. */
  predicate FirstReceipt(decode: Decoder, m: Message, r: TaskReceipt) {
    var lines := Split(m.text, '\n');
    exists k :: 0 <= k < |lines| && LineReceipt(decode, lines[k]) == Some(r)
                && forall j :: 0 <= j < k ==> LineReceipt(decode, lines[j]).None?
  }

  /** The receipt of a turn is the first receipt line of its latest message that has one. */
  predicate IsReceiptOf(decode: Decoder, page: Page, turnID: string, receipt: Option<TaskReceipt>) {
    match receipt
    case None => forall i :: 0 <= i < |page.messages| ==> !Certifies(decode, page.messages[i], turnID)
    case Some(r) =>
      exists i :: 0 <= i < |page.messages|
                  && page.messages[i].turnID == turnID && page.messages[i].role == "assistant"
                  && FirstReceipt(decode, page.messages[i], r)
                  && forall j :: i < j < |page.messages| ==> !Certifies(decode, page.messages[j], turnID)
  }

  method ReceiptForTurn(decode: Decoder, page: Page, turnID: string) returns (receipt: Option<TaskReceipt>)
    ensures IsReceiptOf(decode, page, turnID, receipt)
  {
    var i := |page.messages|;
    while i > 0
      invariant 0 <= i <= |page.messages|
      invariant forall j :: i <= j < |page.messages| ==> !Certifies(decode, page.messages[j], turnID)
    {
      i := i - 1;
      var message := page.messages[i];
      if message.turnID != turnID || message.role != "assistant" {
        continue;
      }
      var lines := Split(message.text, '\n');
      for k := 0 to |lines|
        invariant forall j :: 0 <= j < k ==> LineReceipt(decode, lines[j]).None?
      {
        var line := TrimSpace(lines[k]);
        if !(RECEIPT_PREFIX <= line) {
          continue;
        }
        var decoded := decode(TrimPrefix(line, RECEIPT_PREFIX));
        if decoded.Some? {
          assert LineReceipt(decode, lines[k]) == decoded;
          return decoded;
        }
      }
    }
    return None;
  }

  // ----- Observe -----

  /** What Observe may answer: the first matching turn of the flat history, even when the walk
      breaks off behind it; an error when the walk breaks off without one; NOT_FOUND when the whole
      history has none. */
  ghost predicate ObservesFlat(decode: Decoder, walk: Walk, handle: string, ans: Answer) {
    var es := Flat(walk.pages);
    match ans
    case Observed(obs) =>
      && obs.sessionExists && !obs.humanStopped
      && (|| (walk.Complete? && NoMatch(es, handle) && obs.delivery.DeliveryNotFound? && obs.receipt.None?)
          || exists i :: FirstMatch(es, handle, i) && obs.delivery == MapTurnState(es[i].turn.state)
                         && (if obs.delivery.DeliveryCompleted?
                             then IsReceiptOf(decode, es[i].page, es[i].turn.id, obs.receipt)
                             else obs.receipt.None?))
    case Failed(err) => walk.Cut? && NoMatch(es, handle) && err == walk.err
    case _ => false
  }

  /** The walk has read `seen` and goes on at the cursor `before` with `limit` pages left. */
  predicate WalkAt(server: Server, walk: Walk, seen: seq<Page>, before: int, limit: nat) {
    walk == After(seen, WalkFrom(server, before, limit))
  }

  lemma WalkStarts(server: Server, limit: nat)
    ensures WalkAt(server, WalkFrom(server, 0, limit), [], 0, limit)
  {
    var walk := WalkFrom(server, 0, limit);
    assert [] + walk.pages == walk.pages;
  }

  /** One page further: how the walk continues. */
  lemma WalkOn(server: Server, walk: Walk, seen: seq<Page>, before: int, limit: nat, page: Page)
    requires WalkAt(server, walk, seen, before, limit) && limit > 0 && server(before) == Snapshot(page)
    ensures if !page.more then walk == Complete(seen + [page])
            else if Stuck(before, page) then walk == Cut(seen + [page], NO_ADVANCE)
            else WalkAt(server, walk, seen + [page], page.oldest, limit - 1)
  {
    if page.more && !Stuck(before, page) {
      var tail := WalkFrom(server, page.oldest, limit - 1);
      assert seen + ([page] + tail.pages) == (seen + [page]) + tail.pages;
    }
  }

  /** The flat history of the walk goes on with the page's turns. */
  lemma FlatOn(server: Server, walk: Walk, seen: seq<Page>, before: int, limit: nat, page: Page)
    requires WalkAt(server, walk, seen, before, limit) && limit > 0 && server(before) == Snapshot(page)
    ensures Flat(seen) + Entries(page) <= Flat(walk.pages)
  {
    FlatPrefix(seen, page, WalkFrom(server, before, limit).pages);
  }

  lemma FlatOfNext(seen: seq<Page>, page: Page)
    ensures Flat(seen + [page]) == Flat(seen) + Entries(page)
  {
    FlatAppend(seen, [page]);
    FlatOfFirst([page]);
  }

  /** Where a walk stops short. */
  lemma WalkStops(server: Server, walk: Walk, seen: seq<Page>, before: int, limit: nat)
    requires WalkAt(server, walk, seen, before, limit)
    ensures limit == 0 ==> walk == Cut(seen, LIMIT_EXCEEDED)
    ensures limit > 0 && server(before).Broken? ==> walk == Cut(seen, ErrExternal(server(before).code))
  {
    assert seen + [] == seen;
  }

  lemma FlatPrefix(seen: seq<Page>, page: Page, rest: seq<Page>)
    requires rest != [] && rest[0] == page
    ensures Flat(seen) + Entries(page) <= Flat(seen + rest)
  {
    FlatAppend(seen, rest);
    FlatOfFirst(rest);
    hide Entries, Flat;
    ConcatPrefix(Flat(seen), Entries(page), Flat(rest[1..]));
  }

  lemma ConcatPrefix<T>(a: seq<T>, b: seq<T>, c: seq<T>)
    ensures a + b <= a + (b + c)
  {
    assert a + (b + c) == (a + b) + c;
  }

  lemma FlatOfFirst(pages: seq<Page>)
    requires pages != []
    ensures Flat(pages) == Entries(pages[0]) + Flat(pages[1..])
    ensures |pages| == 1 ==> Flat(pages) == Entries(pages[0])
  {
  }

  /** The index of the first turn of a page that matches, or the number of its turns. */
  method FindOnPage(page: Page, handle: string) returns (t: nat)
    ensures t <= |page.turns|
    ensures forall j :: 0 <= j < t ==> !Matches(page.turns[j], handle)
    ensures t < |page.turns| ==> Matches(page.turns[t], handle)
  {
    t := 0;
    while t < |page.turns| && !Matches(page.turns[t], handle)
      invariant t <= |page.turns|
      invariant forall j :: 0 <= j < t ==> !Matches(page.turns[j], handle)
    {
      t := t + 1;
    }
  }

  /** The state of a turn, and its receipt if it has completed. */
  method TurnOutcome(decode: Decoder, page: Page, turn: Turn)
    returns (delivery: DeliveryState, receipt: Option<TaskReceipt>)
    ensures delivery == MapTurnState(turn.state)
    ensures if delivery.DeliveryCompleted? then IsReceiptOf(decode, page, turn.id, receipt) else receipt.None?
  {
    hide IsReceiptOf, MapTurnState;
    delivery, receipt := MapTurnState(turn.state), None;
    if delivery.DeliveryCompleted? {
      receipt := ReceiptForTurn(decode, page, turn.id);
    }
  }

  method Observe(session: SessionRead, server: Server, decode: Decoder, handle: string) returns (ans: Answer)
    ensures session.SessionBroken? ==> ans == Failed(ErrExternal(session.code))
    ensures session.SessionMissing? ==> ans == Observed(Observation(false, false, DeliveryOther, None))
    ensures session.SessionPresent? && handle == ""
            ==> ans == Observed(Observation(true, false, DeliveryNotFound, None))
    ensures session.SessionPresent? && handle != ""
            ==> ObservesFlat(decode, WalkFrom(server, 0, PAGE_LIMIT), handle, ans)
  {
    if session.SessionBroken? {
      return Failed(ErrExternal(session.code));
    }
    if session.SessionMissing? {
      return Observed(Observation(false, false, DeliveryOther, None));
    }
    if handle == "" {
      return Observed(Observation(true, false, DeliveryNotFound, None));
    }
    ans := SearchTurns(server, decode, handle);
  }

  /** The search of an observation, page by page. */
  method SearchTurns(server: Server, decode: Decoder, handle: string) returns (ans: Answer)
    ensures ObservesFlat(decode, WalkFrom(server, 0, PAGE_LIMIT), handle, ans)
  {
    hide WalkFrom, WalkAt, Flat, Matches, NoMatch, MapTurnState, IsReceiptOf, ObservesFlat, Entries;
    var before := 0;
    ghost var walk := WalkFrom(server, 0, PAGE_LIMIT);
    ghost var seen: seq<Page> := [];
    WalkStarts(server, PAGE_LIMIT);
    NoMatchYet(handle);
    for p := 0 to PAGE_LIMIT
      invariant WalkAt(server, walk, seen, before, PAGE_LIMIT - p)
      invariant NoMatch(Flat(seen), handle)
    {
      var fetched := server(before);
      if fetched.Broken? {
        WalkStops(server, walk, seen, before, PAGE_LIMIT - p);
        ObservesCut(decode, walk, handle);
        return Failed(ErrExternal(fetched.code));
      }
      var page := fetched.page;
      var t := FindOnPage(page, handle);
      if t < |page.turns| {
        var delivery, receipt := TurnOutcome(decode, page, page.turns[t]);
        ObservesPage(server, decode, walk, seen, before, PAGE_LIMIT - p, page, handle, t, receipt);
        return Observed(Observation(true, false, delivery, receipt));
      }
      NoMatchOnPage(seen, page, handle);
      WalkOn(server, walk, seen, before, PAGE_LIMIT - p, page);
      if !page.more {
        ObservesNone(decode, walk, handle);
        return Observed(Observation(true, false, DeliveryNotFound, None));
      }
      if page.oldest <= 0 || (before > 0 && page.oldest >= before) {
        ObservesCut(decode, walk, handle);
        return Failed(NO_ADVANCE);
      }
      before := page.oldest;
      seen := seen + [page];
    }
    WalkStops(server, walk, seen, before, 0);
    ObservesCut(decode, walk, handle);
    return Failed(LIMIT_EXCEEDED);
  }

  lemma ObservesCut(decode: Decoder, walk: Walk, handle: string)
    requires walk.Cut? && NoMatch(Flat(walk.pages), handle)
    ensures ObservesFlat(decode, walk, handle, Failed(walk.err))
  {
  }

  lemma ObservesNone(decode: Decoder, walk: Walk, handle: string)
    requires walk.Complete? && NoMatch(Flat(walk.pages), handle)
    ensures ObservesFlat(decode, walk, handle, Observed(Observation(true, false, DeliveryNotFound, None)))
  {
  }

  lemma NoMatchYet(handle: string)
    ensures NoMatch(Flat([]), handle)
  {
  }

  lemma NoMatchOnPage(seen: seq<Page>, page: Page, handle: string)
    requires NoMatch(Flat(seen), handle)
    requires forall j :: 0 <= j < |page.turns| ==> !Matches(page.turns[j], handle)
    ensures NoMatch(Flat(seen + [page]), handle)
  {
    FlatOfNext(seen, page);
  }

  lemma ObservesPage(server: Server, decode: Decoder, walk: Walk, seen: seq<Page>, before: int, limit: nat, page: Page,
                     handle: string, t: nat, receipt: Option<TaskReceipt>)
    requires WalkAt(server, walk, seen, before, limit) && limit > 0 && server(before) == Snapshot(page)
    requires NoMatch(Flat(seen), handle)
    requires t < |page.turns| && Matches(page.turns[t], handle)
    requires forall j :: 0 <= j < t ==> !Matches(page.turns[j], handle)
    requires if MapTurnState(page.turns[t].state).DeliveryCompleted?
             then IsReceiptOf(decode, page, page.turns[t].id, receipt) else receipt.None?
    ensures var delivery := MapTurnState(page.turns[t].state);
            ObservesFlat(decode, walk, handle, Observed(Observation(true, false, delivery, receipt)))
  {
    hide Flat, Matches, MapTurnState, IsReceiptOf, WalkAt;
    FlatOn(server, walk, seen, before, limit, page);
    PageMatch(walk, seen, page, handle, t);
    assert FirstMatch(Flat(walk.pages), handle, |Flat(seen)| + t);
  }

  lemma PageMatch(walk: Walk, seen: seq<Page>, page: Page, handle: string, t: nat)
    requires Flat(seen) + Entries(page) <= Flat(walk.pages) && NoMatch(Flat(seen), handle)
    requires t < |page.turns| && Matches(page.turns[t], handle)
    requires forall j :: 0 <= j < t ==> !Matches(page.turns[j], handle)
    ensures var i := |Flat(seen)| + t;
            FirstMatch(Flat(walk.pages), handle, i) && Flat(walk.pages)[i] == Entry(page.turns[t], page)
  {
    var es := Flat(walk.pages);
    var i := |Flat(seen)| + t;
    assert es[i] == (Flat(seen) + Entries(page))[i];
    forall j | 0 <= j < i
      ensures !Matches(es[j].turn, handle)
    {
      assert es[j] == (Flat(seen) + Entries(page))[j];
    }
  }

  // ----- what the walk covers -----

  function Cursor(start: int, pages: seq<Page>, i: int): int
    requires 0 <= i < |pages|
  {
    if i == 0 then start else pages[i - 1].oldest
  }

  /** The server holds exactly this paged history: each page is served at the oldest sequence of
      the page before it, the cursors decrease, and only the last page has nothing before it. */
  ghost predicate Serves(server: Server, start: int, pages: seq<Page>) {
    && pages != []
    && forall i :: 0 <= i < |pages| ==>
         && server(Cursor(start, pages, i)) == Snapshot(pages[i])
         && (pages[i].more <==> i < |pages| - 1)
         && (i < |pages| - 1 ==> !Stuck(Cursor(start, pages, i), pages[i]))
  }

  /** The walk succeeds on paged histories of at most `limit` advancing pages, and on no others. */
  lemma WalkIsComplete(server: Server, start: int, limit: nat, pages: seq<Page>)
    ensures WalkFrom(server, start, limit) == Complete(pages) <==> Serves(server, start, pages) && |pages| <= limit
  {
    if WalkFrom(server, start, limit) == Complete(pages) {
      CompleteWalkServes(server, start, limit, pages);
    }
    if Serves(server, start, pages) && |pages| <= limit {
      ServedWalkCompletes(server, start, limit, pages);
    }
  }

  lemma {:induction false} CompleteWalkServes(server: Server, start: int, limit: nat, pages: seq<Page>)
    requires WalkFrom(server, start, limit) == Complete(pages)
    ensures Serves(server, start, pages) && |pages| <= limit
    decreases limit
  {
    var page := server(start).page;
    if page.more {
      var rest := WalkFrom(server, page.oldest, limit - 1);
      assert pages == [page] + rest.pages;
      CompleteWalkServes(server, page.oldest, limit - 1, pages[1..]);
      ServesPrepend(server, start, pages);
    }
  }

  lemma FirstServed(server: Server, start: int, pages: seq<Page>)
    requires Serves(server, start, pages)
    ensures server(start) == Snapshot(pages[0]) && (pages[0].more <==> |pages| > 1)
    ensures |pages| > 1 ==> !Stuck(start, pages[0])
  {
    assert server(Cursor(start, pages, 0)) == Snapshot(pages[0]);
  }

  lemma {:induction false} ServedWalkCompletes(server: Server, start: int, limit: nat, pages: seq<Page>)
    requires Serves(server, start, pages) && |pages| <= limit
    ensures WalkFrom(server, start, limit) == Complete(pages)
    decreases limit
  {
    FirstServed(server, start, pages);
    assert pages == [pages[0]] + pages[1..];
    if |pages| > 1 {
      ServesTail(server, start, pages);
      hide Serves;
      ServedWalkCompletes(server, pages[0].oldest, limit - 1, pages[1..]);
    }
  }

  lemma ServesTail(server: Server, start: int, pages: seq<Page>)
    requires Serves(server, start, pages) && |pages| > 1
    ensures Serves(server, pages[0].oldest, pages[1..])
  {
    var tail := pages[1..];
    forall i | 0 <= i < |tail|
      ensures server(Cursor(pages[0].oldest, tail, i)) == Snapshot(tail[i])
              && (tail[i].more <==> i < |tail| - 1)
              && (i < |tail| - 1 ==> !Stuck(Cursor(pages[0].oldest, tail, i), tail[i]))
    {
      assert tail[i] == pages[i + 1] && Cursor(pages[0].oldest, tail, i) == Cursor(start, pages, i + 1);
    }
  }

  lemma ServesPrepend(server: Server, start: int, pages: seq<Page>)
    requires pages != [] && server(start) == Snapshot(pages[0]) && pages[0].more && !Stuck(start, pages[0])
    requires Serves(server, pages[0].oldest, pages[1..])
    ensures Serves(server, start, pages)
  {
    var tail := pages[1..];
    forall i | 0 <= i < |pages|
      ensures server(Cursor(start, pages, i)) == Snapshot(pages[i])
              && (pages[i].more <==> i < |pages| - 1)
              && (i < |pages| - 1 ==> !Stuck(Cursor(start, pages, i), pages[i]))
    {
      if i > 0 {
        assert pages[i] == tail[i - 1] && Cursor(start, pages, i) == Cursor(pages[0].oldest, tail, i - 1);
      }
    }
  }

  /** The pages are what the server gives from `start` on, and each but the last leads to the next. */
  ghost predicate Reads(server: Server, start: int, pages: seq<Page>) {
    forall i :: 0 <= i < |pages| ==>
      && server(Cursor(start, pages, i)) == Snapshot(pages[i])
      && (i < |pages| - 1 ==> Leads(Cursor(start, pages, i), pages[i]))
  }

  predicate Leads(before: int, page: Page) {
    page.more && !Stuck(before, page)
  }

  /** The last of the pages leads on. */
  predicate LeadsOn(start: int, pages: seq<Page>) {
    pages == [] || Leads(Cursor(start, pages, |pages| - 1), pages[|pages| - 1])
  }

  function NextCursor(start: int, pages: seq<Page>): int {
    if pages == [] then start else pages[|pages| - 1].oldest
  }

  /** Why a walk over these pages is cut: they are as many as allowed, the next one cannot be read, or
      the last one promises more without leading to it; that one has been read too. */
  ghost predicate CutBecause(server: Server, start: int, limit: nat, pages: seq<Page>, err: Error) {
    if LeadsOn(start, pages) then
      if |pages| == limit then err == LIMIT_EXCEEDED
      else server(NextCursor(start, pages)).Broken? && err == ErrExternal(server(NextCursor(start, pages)).code)
    else pages[|pages| - 1].more && err == NO_ADVANCE
  }

  lemma {:induction false} CutWalkReads(server: Server, start: int, limit: nat, pages: seq<Page>, err: Error)
    requires WalkFrom(server, start, limit) == Cut(pages, err)
    ensures Reads(server, start, pages) && |pages| <= limit && CutBecause(server, start, limit, pages, err)
    decreases limit
  {
    if limit > 0 && server(start).Snapshot? {
      var page := server(start).page;
      if Leads(start, page) {
        var rest := WalkFrom(server, page.oldest, limit - 1);
        assert pages == [page] + rest.pages && pages[1..] == rest.pages;
        CutWalkReads(server, page.oldest, limit - 1, pages[1..], err);
        ReadsOn(server, start, limit, pages, err);
      }
    }
  }

  /** One page in front. */
  lemma ReadsOn(server: Server, start: int, limit: nat, pages: seq<Page>, err: Error)
    requires pages != [] && limit > 0 && server(start) == Snapshot(pages[0]) && Leads(start, pages[0])
    ensures Reads(server, start, pages) <==> Reads(server, pages[0].oldest, pages[1..])
    ensures CutBecause(server, start, limit, pages, err)
            <==> CutBecause(server, pages[0].oldest, limit - 1, pages[1..], err)
  {
    var tail := pages[1..];
    forall i | 0 <= i < |tail|
      ensures Cursor(pages[0].oldest, tail, i) == Cursor(start, pages, i + 1)
    {
    }
    assert forall i :: 0 <= i < |tail| ==> tail[i] == pages[i + 1];
    if Reads(server, start, pages) {
      forall i | 0 <= i < |tail|
        ensures server(Cursor(pages[0].oldest, tail, i)) == Snapshot(tail[i])
                && (i < |tail| - 1 ==> Leads(Cursor(pages[0].oldest, tail, i), tail[i]))
      {
        assert server(Cursor(start, pages, i + 1)) == Snapshot(pages[i + 1]);
      }
    }
    if Reads(server, pages[0].oldest, tail) {
      forall i | 0 <= i < |pages|
        ensures server(Cursor(start, pages, i)) == Snapshot(pages[i])
                && (i < |pages| - 1 ==> Leads(Cursor(start, pages, i), pages[i]))
      {
        assert i > 0 ==> server(Cursor(pages[0].oldest, tail, i - 1)) == Snapshot(tail[i - 1]);
      }
    }
  }

  lemma FirstRead(server: Server, start: int, limit: nat, pages: seq<Page>, err: Error)
    requires Reads(server, start, pages) && pages != [] && CutBecause(server, start, limit, pages, err)
    ensures server(start) == Snapshot(pages[0])
    ensures !Leads(start, pages[0]) ==> pages == [pages[0]] && pages[0].more && err == NO_ADVANCE
  {
    assert server(Cursor(start, pages, 0)) == Snapshot(pages[0]);
    if |pages| > 1 {
      assert Leads(Cursor(start, pages, 0), pages[0]);
    }
  }

  /** Nothing has been read, or one page that leads nowhere. */
  lemma CutAtOnce(server: Server, start: int, limit: nat, pages: seq<Page>, err: Error)
    requires |pages| <= limit && CutBecause(server, start, limit, pages, err)
    requires pages != [] ==> pages == [pages[0]] && server(start) == Snapshot(pages[0]) && !Leads(start, pages[0])
    ensures WalkFrom(server, start, limit) == Cut(pages, err)
  {
  }

  lemma CutLater(server: Server, start: int, limit: nat, pages: seq<Page>, err: Error)
    requires limit > 0 && pages != [] && server(start) == Snapshot(pages[0]) && Leads(start, pages[0])
    requires WalkFrom(server, pages[0].oldest, limit - 1) == Cut(pages[1..], err)
    ensures WalkFrom(server, start, limit) == Cut(pages, err)
  {
    assert pages == [pages[0]] + pages[1..];
  }

  lemma {:induction false} ReadsCutWalk(server: Server, start: int, limit: nat, pages: seq<Page>, err: Error)
    requires Reads(server, start, pages) && |pages| <= limit && CutBecause(server, start, limit, pages, err)
    ensures WalkFrom(server, start, limit) == Cut(pages, err)
    decreases limit
  {
    hide WalkFrom, Leads;
    if pages != [] {
      FirstRead(server, start, limit, pages, err);
    }
    if pages != [] && Leads(start, pages[0]) {
      ReadsOn(server, start, limit, pages, err);
      hide Reads, CutBecause;
      ReadsCutWalk(server, pages[0].oldest, limit - 1, pages[1..], err);
      CutLater(server, start, limit, pages, err);
    } else {
      CutAtOnce(server, start, limit, pages, err);
    }
  }

  /** A walk breaks off exactly so, and with that error. */
  lemma WalkIsCut(server: Server, start: int, limit: nat, pages: seq<Page>, err: Error)
    ensures WalkFrom(server, start, limit) == Cut(pages, err)
            <==> Reads(server, start, pages) && |pages| <= limit && CutBecause(server, start, limit, pages, err)
  {
    if WalkFrom(server, start, limit) == Cut(pages, err) {
      CutWalkReads(server, start, limit, pages, err);
    }
    if Reads(server, start, pages) && |pages| <= limit && CutBecause(server, start, limit, pages, err) {
      ReadsCutWalk(server, start, limit, pages, err);
    }
  }

  /** The search covers a history of up to a thousand pages. */
  lemma ThousandPages(server: Server, pages: seq<Page>)
    ensures WalkFrom(server, 0, PAGE_LIMIT) == Complete(pages) <==> Serves(server, 0, pages) && |pages| <= 1000
  {
    WalkIsComplete(server, 0, PAGE_LIMIT, pages);
  }

  /** Along any walk the cursor strictly decreases and stays positive. */
  lemma {:induction false} CursorsDecrease(server: Server, start: int, limit: nat, i: int, j: int)
    requires var pages := WalkFrom(server, start, limit).pages; 0 <= i < j < |pages| - 1
    ensures var pages := WalkFrom(server, start, limit).pages; pages[i].oldest > pages[j].oldest > 0
    decreases limit
  {
    var page := server(start).page;
    var rest := WalkFrom(server, page.oldest, limit - 1);
    if i > 0 {
      CursorsDecrease(server, page.oldest, limit - 1, i - 1, j - 1);
    } else if j > 1 {
      CursorsDecrease(server, page.oldest, limit - 1, 0, j - 1);
      assert rest.pages[0] == server(page.oldest).page;
    } else {
      assert rest.pages[0] == server(page.oldest).page;
    }
  }

  /** NOT_FOUND is reported exactly when no turn matches, or when the first one that does is in a
      state the adapter does not know. */
  lemma NotFoundExactly(decode: Decoder, walk: Walk, handle: string, ans: Answer)
    requires ObservesFlat(decode, walk, handle, ans) && ans.Observed?
    ensures ans.obs.delivery.DeliveryNotFound?
            <==> NoMatch(Flat(walk.pages), handle)
                 || exists i :: FirstMatch(Flat(walk.pages), handle, i)
                                && MapTurnState(Flat(walk.pages)[i].turn.state).DeliveryNotFound?
  {
    var es := Flat(walk.pages);
    if !NoMatch(es, handle) {
      var i :| FirstMatch(es, handle, i) && ans.obs.delivery == MapTurnState(es[i].turn.state);
      FirstMatchIsUnique(es, handle);
    }
  }

  /** So NOT_FOUND does not mean that the turn is missing: here it is there, without a state. */
  lemma NotFoundDespiteTurn(decode: Decoder)
    ensures var walk := Complete([Page([Turn("t", "", "")], [], 1, false)]);
            && !NoMatch(Flat(walk.pages), "t")
            && ObservesFlat(decode, walk, "t", Observed(Observation(true, false, DeliveryNotFound, None)))
  {
    var page := Page([Turn("t", "", "")], [], 1, false);
    var walk := Complete([page]);
    assert [page][1..] == [];
    assert Flat(walk.pages) == Entries(page) + [];
    assert Flat(walk.pages)[0] == Entry(Turn("t", "", ""), page);
    assert FirstMatch(Flat(walk.pages), "t", 0);
    assert TrimSpace("") == "" && ToLower("") == "";
  }

  // ----- Stop -----

  method LiveOnPage(page: Page) returns (live: seq<string>)
    ensures live == LiveIDs(Entries(page))
  {
    live := [];
    var es := Entries(page);
    for t := 0 to |page.turns|
      invariant live == LiveIDs(es[..t])
    {
      LiveIDsAppend(es[..t], [es[t]]);
      assert es[..t + 1] == es[..t] + [es[t]] && [es[t]][1..] == [];
      if MapTurnState(page.turns[t].state).DeliveryAccepted? {
        live := live + [page.turns[t].id];
      }
    }
    assert es[..|page.turns|] == es;
  }

  method LiveTurnIDs(server: Server) returns (live: seq<string>, err: Option<Error>)
    ensures var walk := WalkFrom(server, 0, PAGE_LIMIT);
            if walk.Complete? then err.None? && live == LiveIDs(Flat(walk.pages)) else err == Some(walk.err)
  {
    hide WalkFrom, WalkAt, Flat, LiveIDs;
    var before := 0;
    live, err := [], None;
    ghost var walk := WalkFrom(server, 0, PAGE_LIMIT);
    ghost var seen: seq<Page> := [];
    WalkStarts(server, PAGE_LIMIT);
    NoneLive();
    for p := 0 to PAGE_LIMIT
      invariant WalkAt(server, walk, seen, before, PAGE_LIMIT - p)
      invariant live == LiveIDs(Flat(seen)) && err.None?
    {
      var fetched := server(before);
      WalkStops(server, walk, seen, before, PAGE_LIMIT - p);
      if fetched.Broken? {
        return [], Some(ErrExternal(fetched.code));
      }
      var page := fetched.page;
      WalkOn(server, walk, seen, before, PAGE_LIMIT - p, page);
      FlatOfNext(seen, page);
      var onPage := LiveOnPage(page);
      LiveIDsAppend(Flat(seen), Entries(page));
      live := live + onPage;
      if !page.more {
        return;
      }
      if page.oldest <= 0 || (before > 0 && page.oldest >= before) {
        return [], Some(NO_ADVANCE);
      }
      before := page.oldest;
      seen := seen + [page];
    }
    WalkStops(server, walk, seen, before, 0);
    return [], Some(LIMIT_EXCEEDED);
  }

  lemma NoneLive()
    ensures LiveIDs(Flat([])) == []
  {
  }

  predicate IsLive(e: Entry) {
    MapTurnState(e.turn.state).DeliveryAccepted?
  }

  /** The first turn that matches the handle is live. */
  ghost predicate Active(server: Server, handle: string) {
    var es := Flat(WalkFrom(server, 0, PAGE_LIMIT).pages);
    exists i :: FirstMatch(es, handle, i) && IsLive(es[i])
  }

  /** Entry `i` is live and no other is. */
  predicate OneLive(es: seq<Entry>, i: int) {
    0 <= i < |es| && IsLive(es[i]) && forall j :: 0 <= j < |es| && IsLive(es[j]) ==> j == i
  }

  /** The whole history has one live turn, and this is its id. */
  ghost predicate SoleLive(server: Server, id: string) {
    var walk := WalkFrom(server, 0, PAGE_LIMIT);
    var es := Flat(walk.pages);
    walk.Complete? && exists i :: OneLive(es, i) && es[i].turn.id == id
  }

  lemma {:induction false} NoLiveIDs(es: seq<Entry>)
    requires forall j :: 0 <= j < |es| ==> !IsLive(es[j])
    ensures LiveIDs(es) == []
  {
    if es != [] {
      NoLiveIDs(es[1..]);
    }
  }

  lemma {:induction false} LiveIDsOfOne(es: seq<Entry>, i: int)
    requires OneLive(es, i)
    ensures LiveIDs(es) == [es[i].turn.id]
  {
    var tail := es[1..];
    if i == 0 {
      NoLiveIDs(tail);
    } else {
      assert forall j :: 0 <= j < |tail| ==> tail[j] == es[j + 1];
      assert tail[i - 1] == es[i];
      LiveIDsOfOne(tail, i - 1);
    }
  }

  lemma {:induction false} OneOfLiveIDs(es: seq<Entry>, id: string) returns (i: int)
    requires LiveIDs(es) == [id]
    ensures OneLive(es, i) && es[i].turn.id == id
  {
    var tail := es[1..];
    if IsLive(es[0]) {
      i := 0;
      assert LiveIDs(es)[0] == es[0].turn.id && |LiveIDs(es)| == 1 + |LiveIDs(tail)|;
      forall j | 0 <= j < |es| && IsLive(es[j])
        ensures j == 0
      {
        if j > 0 {
          LiveIDsNonempty(tail, j - 1);
        }
      }
    } else {
      var k := OneOfLiveIDs(tail, id);
      i := k + 1;
      assert LiveIDs(es) == [] + LiveIDs(tail) && es[i] == tail[k];
      forall j | 0 <= j < |es| && IsLive(es[j])
        ensures j == i
      {
        assert j > 0 && IsLive(tail[j - 1]);
      }
    }
  }

  lemma {:induction false} LiveIDsNonempty(es: seq<Entry>, j: int)
    requires 0 <= j < |es| && IsLive(es[j])
    ensures LiveIDs(es) != []
  {
    if j > 0 {
      LiveIDsNonempty(es[1..], j - 1);
    }
  }

  lemma OneLiveID(es: seq<Entry>, id: string)
    ensures LiveIDs(es) == [id] <==> exists i :: OneLive(es, i) && es[i].turn.id == id
  {
    if LiveIDs(es) == [id] {
      var i := OneOfLiveIDs(es, id);
    }
    if i :| OneLive(es, i) && es[i].turn.id == id {
      LiveIDsOfOne(es, i);
    }
  }

  datatype SteerResponse = SteerResponse(outcome: string, turnID: string, state: string)

  /** The reply to a POST; `body` is None when it does not decode. */
  datatype PostReply = PostBroken(code: int) | Posted(status: int, body: Option<SteerResponse>)

  /** `interrupted` tells whether the interrupt was posted. The history may change between the two
      walks: `first` is served to the observation, `second` to the search for live turns. */
  method Stop(session: SessionRead, first: Server, second: Server, decode: Decoder, expected: string,
              reply: PostReply) returns (err: Option<Error>, interrupted: bool)
    ensures interrupted <==> session.SessionPresent? && expected != ""
                             && Active(first, expected) && SoleLive(second, expected)
    ensures !interrupted ==> err.Some?
    ensures interrupted ==> (err.None? <==> reply.Posted? && 200 <= reply.status < 300)
  {
    interrupted := false;
    var seen := Observe(session, first, decode, expected);
    ghost var walk := WalkFrom(first, 0, PAGE_LIMIT);
    if session.SessionPresent? && expected != "" {
      FirstMatchIsUnique(Flat(walk.pages), expected);
    }
    if seen.Failed? {
      return Some(seen.err), false;
    }
    if !seen.obs.sessionExists || !seen.obs.delivery.DeliveryAccepted? {
      return Some(ErrSessionOwnerMismatch), false;
    }
    var live, failed := LiveTurnIDs(second);
    OneLiveID(Flat(WalkFrom(second, 0, PAGE_LIMIT).pages), expected);
    if failed.Some? {
      return failed, false;
    }
    if |live| != 1 || live[0] != expected {
      return Some(ErrSessionOwnerMismatch), false;
    }
    interrupted := true;
    match reply
    case PostBroken(code) => err := Some(ErrExternal(code));
    case Posted(status, _) =>
      err := if status < 200 || status >= 300 then Some(ErrExternal(status)) else None;
  }

  lemma FirstMatchIsUnique(es: seq<Entry>, handle: string)
    ensures forall i, j :: FirstMatch(es, handle, i) && FirstMatch(es, handle, j) ==> i == j
    ensures NoMatch(es, handle) ==> !exists i :: FirstMatch(es, handle, i)
  {
  }

  // ----- delivery outcomes -----

  function SteerOrSend(recoverOnly: bool, reply: PostReply): (ans: Answer)
    ensures ans.Receipt? || ans.Failed?
    ensures ans.Receipt? <==> && reply.Posted? && 200 <= reply.status < 300 && reply.body.Some?
                              && reply.body.value.outcome == "sent" && reply.body.value.turnID != ""
    ensures ans.Receipt? ==> && ans.receipt.turnID == reply.body.value.turnID
                             && (Spells(reply.body.value.state, "completed") <==> ans.receipt.state.DeliveryCompleted?)
                             && (Spells(reply.body.value.state, "cancelled")
                                 || Spells(reply.body.value.state, "interrupted")
                                 <==> ans.receipt.state.DeliveryStopped?)
    ensures ans.Receipt? ==> ans.receipt.turnID != "" && (ans.receipt.state.DeliveryAccepted?
                             || ans.receipt.state.DeliveryCompleted? || ans.receipt.state.DeliveryStopped?)
    ensures ans == Failed(ErrRequestNotAccepted)
            <==> !recoverOnly && reply.Posted? && (reply.status == 400 || reply.status == 404)
    ensures ans == Failed(ErrSessionContaminated)
            <==> reply.Posted? && 200 <= reply.status < 300 && reply.body.Some? && reply.body.value.outcome == "steered"
  {
    match reply
    case PostBroken(code) => Failed(ErrExternal(code))
    case Posted(status, body) =>
      if status < 200 || status >= 300 then
        if !recoverOnly && (status == 400 || status == 404) then Failed(ErrRequestNotAccepted)
        else Failed(ErrExternal(status))
      else match body
        case None => Failed(ErrExternal(status))
        case Some(response) =>
          if response.outcome == "steered" then Failed(ErrSessionContaminated)
          else if response.outcome != "sent" then Failed(ErrExternal(status))
          else if response.turnID == "" then Failed(ErrExternal(status))
          else
            MapTurnStateExactly(response.state);
            var state := MapTurnState(response.state);
            Receipt(DeliveryReceipt(
              if state.DeliveryNotFound? || state.DeliveryRejected? then DeliveryAccepted else state,
              response.turnID))
  }
}
