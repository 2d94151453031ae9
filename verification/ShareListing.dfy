/**
  Listing a shared folder before it is received: offsets that only grow, hints that may be
  missing or contradict each other, and a bound on how much is taken.
 */
module ShareListing {
  import opened Wrappers

  const MAX_SHARE_ITEMS := 1000

  /** The hints of a response in the order they are looked at; a malformed one has no value. */
  datatype Hint =
    | TotalHint(total: Option<nat>)
    | MoreHint(more: Option<bool>)
    | NextHint(next: Next)

  datatype Next = BadNext | NullNext | NextAt(offset: nat)

  datatype Info = Info(total: Option<nat>, more: Option<bool>, next: Option<nat>)

  datatype Failure = AuthFailure | ListingFailed | TooLarge | Malformed

  // ----------------------------------------------------------------------- the hints

  predicate GoodHint(h: Hint) {
    match h
    case TotalHint(total) => total.Some? && total.value <= MAX_SHARE_ITEMS
    case MoreHint(more) => more.Some?
    case NextHint(next) => !next.BadNext?
  }

  /** Two hints, the first looked at before the second, that go together. */
  predicate Compatible(a: Hint, b: Hint) {
    && (a.TotalHint? && b.TotalHint? ==> a == b)
    && (a.MoreHint? && b.MoreHint? ==> a == b)
    && (a.NextHint? && b.NextHint? && a.next.NextAt? ==> a == b)
  }

  predicate Consistent(hints: seq<Hint>) {
    && (forall i | 0 <= i < |hints| :: GoodHint(hints[i]))
    && (forall i, j | 0 <= i < j < |hints| :: Compatible(hints[i], hints[j]))
  }

  predicate Agrees(info: Info, h: Hint) {
    match h
    case TotalHint(total) => total == info.total
    case MoreHint(more) => more == info.more
    case NextHint(next) => next.NextAt? ==> info.next == Some(next.offset)
  }

  /** What consistent hints say. */
  ghost predicate Says(hints: seq<Hint>, info: Info) {
    && (info.total.Some? ==> TotalHint(info.total) in hints)
    && (info.more.Some? ==> MoreHint(info.more) in hints)
    && (info.next.Some? ==> NextHint(NextAt(info.next.value)) in hints)
    && (forall h | h in hints :: Agrees(info, h))
  }

  /** One hint taken into account. */
  function Heard(info: Info, h: Hint): Option<Info> {
    match h
    case TotalHint(total) =>
      if !GoodHint(h) || (info.total.Some? && info.total != total) then None else Some(info.(total := total))
    case MoreHint(more) =>
      if more.None? || (info.more.Some? && info.more != more) then None else Some(info.(more := more))
    case NextHint(next) =>
      var offset := if next.NextAt? then Some(next.offset) else None;
      if next.BadNext? || (info.next.Some? && info.next != offset) then None else Some(info.(next := offset))
  }

  lemma HeardSays(hints: seq<Hint>, info: Info, h: Hint)
    requires Consistent(hints) && Says(hints, info)
    ensures Heard(info, h).Some? <==> Consistent(hints + [h])
    ensures Heard(info, h).Some? ==> Says(hints + [h], Heard(info, h).value)
  {
    var all := hints + [h];
    if Heard(info, h).Some? {
      forall i | 0 <= i < |hints| ensures Compatible(hints[i], h) {
        assert hints[i] in hints && GoodHint(hints[i]) && Agrees(info, hints[i]);
      }
      assert forall i | 0 <= i < |hints| :: all[i] == hints[i];
    } else {
      Unheard(hints, info, h);
    }
  }

  lemma Unheard(hints: seq<Hint>, info: Info, h: Hint)
    requires Consistent(hints) && Says(hints, info) && Heard(info, h).None?
    ensures !Consistent(hints + [h])
  {
    var all := hints + [h];
    assert all[|hints|] == h;
    if GoodHint(h) {
      var a := if h.TotalHint? then TotalHint(info.total) else if h.MoreHint? then MoreHint(info.more) else NextHint(NextAt(info.next.value));
      assert a in hints;
      var i :| 0 <= i < |hints| && hints[i] == a;
      assert all[i] == a && !Compatible(a, h);
    }
  }

  /** Reads the hints one by one; they are accepted exactly when they are consistent. */
  method PageInfo(hints: seq<Hint>) returns (info: Info, failure: Option<Failure>)
    ensures failure.None? <==> Consistent(hints)
    ensures failure.None? ==> Says(hints, info) && forall n: nat :: info.total == Some(n) <==> TotalHint(Some(n)) in hints
    ensures failure == Some(TooLarge) ==> exists h :: h in hints && h.TotalHint? && h.total.Some? && h.total.value > MAX_SHARE_ITEMS
    ensures failure.Some? ==> failure.value in {TooLarge, Malformed}
    ensures hints != [] && hints[0].TotalHint? && hints[0].total.Some? && hints[0].total.value > MAX_SHARE_ITEMS ==> failure == Some(TooLarge)
  {
    info := Info(None, None, None);
    for k := 0 to |hints|
      invariant Consistent(hints[..k]) && Says(hints[..k], info)
    {
      hide Consistent, Says;
      HeardSays(hints[..k], info, hints[k]);
      assert hints[..k] + [hints[k]] == hints[..k + 1];
      var heard := Heard(info, hints[k]);
      if heard.None? {
        BadPrefix(hints, k + 1);
        var h := hints[k];
        var large := h.TotalHint? && h.total.Some? && h.total.value > MAX_SHARE_ITEMS;
        return info, Some(if large then TooLarge else Malformed);
      }
      info := heard.value;
    }
    assert hints[..|hints|] == hints;
    forall n: nat ensures info.total == Some(n) <==> TotalHint(Some(n)) in hints {
      assert TotalHint(Some(n)) in hints ==> Agrees(info, TotalHint(Some(n)));
    }
    return info, None;
  }

  lemma BadPrefix(hints: seq<Hint>, k: nat)
    requires k <= |hints| && !Consistent(hints[..k])
    ensures !Consistent(hints)
  {
  }

  // -------------------------------------------------------------------- the listing

  /** Every offset is asked for at most once.  A record without an acceptable id has none. */
  datatype Answer =
    | Raised(auth: bool) | AuthRefused | NotOk | Interrupted
    | Page(hints: seq<Hint>, records: Option<seq<Option<string>>>)

  type Gateway = nat -> Answer

  datatype Outcome = Listed(ids: seq<string>) | Failed(failure: Failure) | Cancelled

  /** The distinct ones, in the order they were first seen. */
  function FirstSeen(read: seq<string>): seq<string> {
    if read == [] then []
    else
      var before := FirstSeen(read[..|read| - 1]);
      if read[|read| - 1] in before then before else before + [read[|read| - 1]]
  }

  predicate Distinct(ids: seq<string>) {
    forall i, j | 0 <= i < j < |ids| :: ids[i] != ids[j]
  }

  lemma {:induction false} FirstSeenIsDistinct(read: seq<string>)
    ensures Distinct(FirstSeen(read))
    ensures forall id :: id in FirstSeen(read) <==> id in read
  {
    if read != [] {
      FirstSeenIsDistinct(read[..|read| - 1]);
      assert read == read[..|read| - 1] + [read[|read| - 1]];
    }
  }

  lemma {:induction false} DistinctIsFirstSeen(read: seq<string>)
    requires Distinct(read)
    ensures FirstSeen(read) == read
  {
    if read != [] {
      DistinctIsFirstSeen(read[..|read| - 1]);
      assert read == read[..|read| - 1] + [read[|read| - 1]];
    }
  }

  /** The ids of a page, if all its records have one. */
  predicate AllIds(records: seq<Option<string>>) {
    forall i | 0 <= i < |records| :: records[i].Some?
  }

  function IdsOf(records: seq<Option<string>>): seq<string>
    requires AllIds(records)
  {
    seq(|records|, i requires 0 <= i < |records| => records[i].value)
  }

  lemma OneMoreSeen(read: seq<string>, records: seq<Option<string>>, k: nat)
    requires k < |records| && AllIds(records[..k + 1])
    ensures
      var before, id := read + IdsOf(records[..k]), records[k].value;
      && read + IdsOf(records[..k + 1]) == before + [id]
      && FirstSeen(before + [id]) == if id in FirstSeen(before) then FirstSeen(before) else FirstSeen(before) + [id]
  {
    var before, id := read + IdsOf(records[..k]), records[k].value;
    assert IdsOf(records[..k + 1]) == IdsOf(records[..k]) + [id];
    assert (before + [id])[..|before|] == before;
  }

  method Take(records: seq<Option<string>>, before: seq<string>, ghost read: seq<string>) returns (ids: seq<string>, ok: bool)
    requires before == FirstSeen(read)
    ensures ok <==> AllIds(records)
    ensures ok ==> ids == FirstSeen(read + IdsOf(records))
  {
    assert IdsOf(records[..0]) == [] && read + [] == read;
    hide FirstSeen, IdsOf;
    ids := before;
    for k := 0 to |records|
      invariant AllIds(records[..k]) && ids == FirstSeen(read + IdsOf(records[..k]))
    {
      if records[k].None? {
        return ids, false;
      }
      OneMoreSeen(read, records, k);
      var id := records[k].value;
      if id !in ids {
        ids := ids + [id];
      }
    }
    assert records[..|records|] == records;
    return ids, true;
  }

  /** A page the listing went past: the next offset is the one named, or the one after it. */
  ghost predicate LeadsTo(g: Gateway, offset: nat, next: nat) {
    && g(offset).Page? && Consistent(g(offset).hints) && g(offset).records.Some?
    && AllIds(g(offset).records.value) && offset < next
    && exists info :: Says(g(offset).hints, info)
         && next == if info.next.Some? then info.next.value else offset + |g(offset).records.value|
  }

  /** Offsets that lead from the start to `at`, and all that was read on the way. */
  ghost predicate Trail(g: Gateway, at: nat, read: seq<string>)
    decreases at
  {
    || (at == 0 && read == [])
    || exists offset: nat, before :: offset < at && LeadsTo(g, offset, at) && Trail(g, offset, before)
         && read == before + IdsOf(g(offset).records.value)
  }

  // ---------------------------------------------------------------- an honest server

  /** Where a server cuts its pages, and what it hints at on each of them. */
  datatype Style = Style(cut: nat -> nat, total: nat -> bool, more: nat -> bool, next: nat -> bool)
  {
    predicate Counts(offset: nat) {
      total(offset) || more(offset)
    }

    predicate Hints(offset: nat) {
      Counts(offset) || next(offset)
    }
  }

  /** A page may be of any size, and is empty only if nothing is left. */
  function EndOf(style: Style, offset: nat, n: nat): (end: nat)
    ensures offset < n ==> offset < end <= n
    ensures offset >= n ==> end == n
  {
    if offset < style.cut(offset) < n then style.cut(offset) else n
  }

  function TrueHints(style: Style, offset: nat, n: nat): seq<Hint> {
    var end := EndOf(style, offset, n);
    (if style.total(offset) then [TotalHint(Some(n))] else [])
    + (if style.more(offset) then [MoreHint(Some(end < n))] else [])
    + (if style.next(offset) then [NextHint(if end < n then NextAt(end) else NullNext)] else [])
  }

  function TrueInfo(style: Style, offset: nat, n: nat): Info {
    var end := EndOf(style, offset, n);
    Info(if style.total(offset) then Some(n) else None,
         if style.more(offset) then Some(end < n) else None,
         if style.next(offset) && end < n then Some(end) else None)
  }

  /** Shows the items in order, on pages of any size, and whatever it hints is true. */
  ghost predicate Honest(g: Gateway, items: seq<string>, style: Style) {
    forall offset: nat | offset <= |items| ::
      && g(offset).Page? && g(offset).hints == TrueHints(style, offset, |items|)
      && g(offset).records.Some? && AllIds(g(offset).records.value)
      && IdsOf(g(offset).records.value) == items[offset..EndOf(style, offset, |items|)]
  }

  lemma TrueHintsSay(style: Style, offset: nat, n: nat, info: Info)
    ensures Consistent(TrueHints(style, offset, n)) <==> !style.total(offset) || n <= MAX_SHARE_ITEMS
    ensures Says(TrueHints(style, offset, n), info) ==> info == TrueInfo(style, offset, n)
  {
    var hints := TrueHints(style, offset, n);
    if style.total(offset) {
      assert hints[0] == TotalHint(Some(n));
    }
    if Says(hints, info) {
      TrueHintsTell(style, offset, n, info);
    }
  }

  lemma TrueHintsTell(style: Style, offset: nat, n: nat, info: Info)
    requires Says(TrueHints(style, offset, n), info)
    ensures info == TrueInfo(style, offset, n)
  {
    var hints, told := TrueHints(style, offset, n), TrueInfo(style, offset, n);
    assert style.total(offset) ==> TotalHint(Some(n)) in hints;
    assert style.more(offset) ==> MoreHint(told.more) in hints;
    assert told.next.Some? ==> NextHint(NextAt(told.next.value)) in hints;
    assert forall h | h in hints :: Agrees(info, h) && Agrees(told, h);
  }

  /** The last page from `offset` on says that it is the last, by a count or in so many words. */
  predicate Closes(style: Style, offset: nat, n: nat)
    decreases n - offset
  {
    var end := EndOf(style, offset, n);
    if end < n && offset < n then Closes(style, end, n) else style.Counts(offset)
  }

  /** No page from `offset` on hints at the one after it. */
  predicate Silent(style: Style, offset: nat, n: nat)
    decreases n - offset
  {
    var end := EndOf(style, offset, n);
    end < n && offset < n ==> !style.Hints(offset) && Silent(style, end, n)
  }

  /** A last page that does not say so is followed by one more question, and the empty page that
      answers it is held against any hint that led on. */
  predicate Conclusive(style: Style, n: nat) {
    Closes(style, 0, n) || Silent(style, 0, n)
  }

  /** What the listing makes of an honest server. */
  function Verdict(items: seq<string>, style: Style): Outcome {
    if |items| > MAX_SHARE_ITEMS then Failed(TooLarge)
    else if Conclusive(style, |items|) then Listed(items)
    else Failed(Malformed)
  }

  // ------------------------------------------------------------------------- the loop

  ghost predicate Readable(g: Gateway, offset: nat) {
    && g(offset).Page? && Consistent(g(offset).hints)
    && g(offset).records.Some? && AllIds(g(offset).records.value)
  }

  /** A page that may be the last: nothing on it leads on, and something on it says so. */
  ghost predicate Ends(g: Gateway, offset: nat, info: Info) {
    && Readable(g, offset) && Says(g(offset).hints, info)
    && info.next.None? && info.more != Some(true)
    && (info.total.Some? ==> offset + |g(offset).records.value| == info.total.value)
    && (info.total.Some? || info.more.Some?)
  }

  /** What a listing that is returned consists of. */
  ghost predicate Collected(g: Gateway, ids: seq<string>, at: nat, before: seq<string>) {
    && Trail(g, at, before) && g(at).Page?
    && (|| (ids == FirstSeen(before) && g(at).records == Some([]))
        || (exists info :: Ends(g, at, info) && ids == FirstSeen(before + IdsOf(g(at).records.value)))
        || (ids == [] && g(at).records.None? && TotalHint(Some(0)) in g(at).hints))
  }

  /** Where the listing of an honest server stands before it asks for `offset`. */
  ghost predicate Honestly(items: seq<string>, style: Style, offset: nat, read: seq<string>, explicit: bool) {
    var n := |items|;
    && offset <= n && read == items[..offset]
    && (offset == 0 ==> !explicit)
    && (Silent(style, 0, n) <==> !explicit && (offset < n ==> Silent(style, offset, n)))
    && (if offset < n then Closes(style, 0, n) == Closes(style, offset, n) else offset == 0 || !Closes(style, 0, n))
  }

  lemma StartIsEmpty(g: Gateway, read: seq<string>)
    ensures Trail(g, 0, read) ==> FirstSeen(read) == []
  {
  }

  lemma TrailGoesOn(g: Gateway, offset: nat, next: nat, before: seq<string>)
    requires Trail(g, offset, before) && LeadsTo(g, offset, next)
    ensures Trail(g, next, before + IdsOf(g(offset).records.value))
  {
  }

  /** What follows from a page once its records are taken in: with `ids` ids so far, either the
      listing is returned, or it goes on, or it fails. */
  datatype Decision = Stop | GoOn(offset: nat, explicit: bool) | Fault(failure: Failure)

  function Decide(offset: nat, records: nat, info: Info, ids: nat, explicit: bool): (d: Decision)
    requires records > 0
    ensures d.GoOn? ==> d.offset > offset && ids <= MAX_SHARE_ITEMS
                        && d.offset == if info.next.Some? then info.next.value else offset + records
    ensures d.Stop? ==> ids <= MAX_SHARE_ITEMS && info.next.None? && info.more != Some(true) && (info.total.Some? || info.more.Some?)
                        && (info.total.Some? ==> offset + records == info.total.value)
    ensures d.Fault? ==> d.failure.TooLarge? || d.failure.Malformed?
  {
    var calculated := offset + records;
    var known := info.more == Some(true) || info.next.Some? || (info.total.Some? && calculated < info.total.value);
    var cursor := if info.next.Some? then info.next.value else calculated;
    if ids > MAX_SHARE_ITEMS then Fault(TooLarge)
    else if info.total.Some? && calculated > info.total.value then Fault(Malformed)
    else if info.next.Some? && info.next.value <= offset then Fault(Malformed)
    else if info.next.Some? && info.next.value > MAX_SHARE_ITEMS then Fault(TooLarge)
    else if ids == MAX_SHARE_ITEMS then
      if known then Fault(TooLarge) else if info.total.Some? || info.more == Some(false) then Stop else GoOn(cursor, explicit)
    else if !known && !(info.more.None? && info.total.None?) then Stop
    else GoOn(cursor, explicit || known)
  }

  lemma HonestDecision(style: Style, offset: nat, n: nat, explicit: bool)
    requires offset < n && offset <= MAX_SHARE_ITEMS && (style.total(offset) ==> n <= MAX_SHARE_ITEMS)
    ensures
      var end := EndOf(style, offset, n);
      var d := Decide(offset, end - offset, TrueInfo(style, offset, n), end, explicit);
      && (d.Fault? ==> d.failure == TooLarge && n > MAX_SHARE_ITEMS)
      && (d.Stop? ==> end == n <= MAX_SHARE_ITEMS && style.Counts(offset))
      && (d.GoOn? ==> d.offset == end && (end == n ==> !style.Counts(offset)))
      && (d.GoOn? ==> (d.explicit <==> explicit || (end < n && style.Hints(offset))))
  {
  }

  lemma HonestIds(items: seq<string>, k: nat)
    requires Distinct(items) && k <= |items|
    ensures FirstSeen(items[..k]) == items[..k]
  {
    DistinctIsFirstSeen(items[..k]);
  }

  /** An honest page, seen from where the listing stands. */
  lemma HonestPage(g: Gateway, items: seq<string>, style: Style, offset: nat, read: seq<string>, explicit: bool, info: Info)
    requires Honest(g, items, style) && Honestly(items, style, offset, read, explicit)
    requires Says(g(offset).hints, info) && Distinct(items)
    ensures FirstSeen(items[..EndOf(style, offset, |items|)]) == items[..EndOf(style, offset, |items|)]
    ensures g(offset).records.Some? && AllIds(g(offset).records.value)
    ensures info == TrueInfo(style, offset, |items|)
    ensures |g(offset).records.value| == EndOf(style, offset, |items|) - offset
    ensures read + IdsOf(g(offset).records.value) == items[..EndOf(style, offset, |items|)]
  {
    HonestIds(items, EndOf(style, offset, |items|));
    TrueHintsSay(style, offset, |items|, info);
    assert IdsOf(g(offset).records.value) == items[offset..EndOf(style, offset, |items|)];
  }

  /** The hints of an honest server are refused only when they say that there is too much. */
  lemma HonestHints(g: Gateway, items: seq<string>, style: Style, offset: nat, read: seq<string>, explicit: bool)
    requires Honest(g, items, style) && Honestly(items, style, offset, read, explicit) && g(offset).Page?
    ensures Consistent(g(offset).hints) <==> !style.total(offset) || |items| <= MAX_SHARE_ITEMS
    ensures style.total(offset) ==> g(offset).hints != [] && g(offset).hints[0] == TotalHint(Some(|items|))
  {
    var info := Info(None, None, None);
    TrueHintsSay(style, offset, |items|, info);
  }

  /** An empty page of an honest server. */
  lemma HonestEnd(items: seq<string>, style: Style, offset: nat, read: seq<string>, explicit: bool)
    requires Distinct(items) && Honestly(items, style, offset, read, explicit) && offset <= MAX_SHARE_ITEMS
    requires EndOf(style, offset, |items|) == offset
    ensures Verdict(items, style) == if offset == 0 then Listed([]) else if explicit then Failed(Malformed) else Listed(FirstSeen(read))
  {
    assert items[..|items|] == items;
    HonestIds(items, |items|);
  }

  /** A page of an honest server with something on it. */
  lemma HonestStep(items: seq<string>, style: Style, offset: nat, read: seq<string>, explicit: bool, d: Decision)
    requires Distinct(items) && Honestly(items, style, offset, read, explicit) && offset <= MAX_SHARE_ITEMS
    requires (style.total(offset) ==> |items| <= MAX_SHARE_ITEMS) && EndOf(style, offset, |items|) > offset
    requires d == Decide(offset, EndOf(style, offset, |items|) - offset, TrueInfo(style, offset, |items|), EndOf(style, offset, |items|), explicit)
    ensures d.Stop? ==> Verdict(items, style) == Listed(FirstSeen(items[..EndOf(style, offset, |items|)]))
    ensures d.Fault? ==> Verdict(items, style) == Failed(d.failure)
    ensures d.GoOn? ==> Honestly(items, style, d.offset, items[..EndOf(style, offset, |items|)], d.explicit)
  {
    HonestDecision(style, offset, |items|, explicit);
    HonestIds(items, EndOf(style, offset, |items|));
    hide Decide, Distinct, FirstSeen;
    if d.Stop? {
      assert items[..|items|] == items;
    }
  }

  ghost predicate Applies(g: Gateway, items: seq<string>, style: Style, offset: nat, read: seq<string>, explicit: bool) {
    Honest(g, items, style) && Distinct(items) && Honestly(items, style, offset, read, explicit)
  }

  /** What each way to fail says about the page asked for last. */
  ghost predicate Reason(g: Gateway, outcome: Outcome, at: nat, before: seq<string>, explicit: bool) {
    match outcome
    case Listed(_) => true
    case Cancelled => g(at).Interrupted?
    case Failed(failure) =>
      match failure
      case AuthFailure => g(at).AuthRefused? || g(at) == Raised(true)
      case ListingFailed => g(at).NotOk? || g(at) == Raised(false)
      case TooLarge => at > MAX_SHARE_ITEMS || HintsTooLarge(g, at) || Faulted(g, at, before, explicit, TooLarge)
      case Malformed =>
        && g(at).Page?
        && (|| !Consistent(g(at).hints)
            || (g(at).records.None? && TotalHint(Some(0)) !in g(at).hints)
            || (g(at).records == Some([]) && at > 0 && explicit)
            || (g(at).records.Some? && !AllIds(g(at).records.value))
            || Faulted(g, at, before, explicit, Malformed))
  }

  ghost predicate HintsTooLarge(g: Gateway, at: nat) {
    && g(at).Page?
    && exists h :: h in g(at).hints && h.TotalHint? && h.total.Some? && h.total.value > MAX_SHARE_ITEMS
  }

  /** The page was read, and its numbers do not allow to go on. */
  ghost predicate Faulted(g: Gateway, at: nat, before: seq<string>, explicit: bool, failure: Failure) {
    && Readable(g, at) && g(at).records.value != []
    && exists info :: Says(g(at).hints, info)
         && Decide(at, |g(at).records.value|, info, |FirstSeen(before + IdsOf(g(at).records.value))|, explicit) == Fault(failure)
  }

  datatype Turn = Return(outcome: Outcome) | Turn(ids: seq<string>, offset: nat, explicit: bool)

  /** One page. */
  method ReadPage(g: Gateway, offset: nat, hints: seq<Hint>, records: Option<seq<Option<string>>>, ids: seq<string>, explicit: bool,
                  ghost before: seq<string>, ghost items: seq<string>, ghost style: Style) returns (turn: Turn)
    requires g(offset) == Page(hints, records) && ids == FirstSeen(before) && |ids| <= MAX_SHARE_ITEMS && Trail(g, offset, before)
    requires offset <= MAX_SHARE_ITEMS
    ensures turn.Return? && turn.outcome.Listed? ==> |turn.outcome.ids| <= MAX_SHARE_ITEMS && Collected(g, turn.outcome.ids, offset, before)
    ensures turn.Return? ==> Reason(g, turn.outcome, offset, before, explicit)
    ensures turn.Turn? ==> turn.offset > offset && |turn.ids| <= MAX_SHARE_ITEMS && Readable(g, offset)
    ensures turn.Turn? ==> turn.ids == FirstSeen(before + IdsOf(g(offset).records.value)) && LeadsTo(g, offset, turn.offset)
    ensures Applies(g, items, style, offset, before, explicit) ==>
      if turn.Return? then turn.outcome == Verdict(items, style)
      else Readable(g, offset) && Honestly(items, style, turn.offset, before + IdsOf(g(offset).records.value), turn.explicit)
  {
    hide Trail, FirstSeen, Verdict, Honest, Honestly, Distinct, Consistent, Says, Decide;
    if Applies(g, items, style, offset, before, explicit) {
      HonestHints(g, items, style, offset, before, explicit);
    }
    var info, failure := PageInfo(hints);
    if failure.Some? {
      VerdictTooLarge(items, style);
      return Return(Failed(failure.value));
    }
    if Applies(g, items, style, offset, before, explicit) {
      HonestPage(g, items, style, offset, before, explicit, info);
    }
    if records.None? {
      return Return(if info.total == Some(0) then Listed([]) else Failed(Malformed));
    }
    if records.value == [] {
      StartIsEmpty(g, before);
      if Applies(g, items, style, offset, before, explicit) {
        HonestEnd(items, style, offset, before, explicit);
      }
      return Return(if offset == 0 then Listed([]) else if explicit then Failed(Malformed) else Listed(ids));
    }
    var now, ok := Take(records.value, ids, before);
    if !ok {
      return Return(Failed(Malformed));
    }
    var d := Decide(offset, |records.value|, info, |now|, explicit);
    if Applies(g, items, style, offset, before, explicit) {
      HonestStep(items, style, offset, before, explicit, d);
    }
    match d
    case Fault(f) =>
      assert Faulted(g, offset, before, explicit, f);
      return Return(Failed(f));
    case Stop =>
      assert Ends(g, offset, info);
      return Return(Listed(now));
    case GoOn(next, known) => return Turn(now, next, known);
  }

  lemma VerdictTooLarge(items: seq<string>, style: Style)
    ensures |items| > MAX_SHARE_ITEMS ==> Verdict(items, style) == Failed(TooLarge)
  {
  }

  lemma CollectedIsDistinct(g: Gateway, ids: seq<string>, at: nat, before: seq<string>)
    requires Collected(g, ids, at, before)
    ensures Distinct(ids)
  {
    FirstSeenIsDistinct(before);
    if ids != [] && ids != FirstSeen(before) {
      FirstSeenIsDistinct(before + IdsOf(g(at).records.value));
    }
  }

  /**
    Lists a share.  The offsets grow, so it ends.  Any listing returned has at most a thousand
    ids, all different, in the order they were first seen on a trail of pages; and an honest
    server of distinct items gets the verdict above.
   */
  method ShareFileIds(g: Gateway, ghost items: seq<string>, ghost style: Style)
      returns (outcome: Outcome, ghost at: nat, ghost before: seq<string>, ghost hinted: bool)
    ensures outcome.Listed? ==> |outcome.ids| <= MAX_SHARE_ITEMS && Distinct(outcome.ids)
    ensures outcome.Listed? ==> Collected(g, outcome.ids, at, before)
    ensures Trail(g, at, before) && Reason(g, outcome, at, before, hinted)
    ensures Honest(g, items, style) && Distinct(items) ==> outcome == Verdict(items, style)
  {
    var ids: seq<string> := [];
    var explicit := false;
    var offset: nat := 0;
    at, before, hinted := 0, [], false;
    while offset <= MAX_SHARE_ITEMS
      invariant at == offset && ids == FirstSeen(before) && |ids| <= MAX_SHARE_ITEMS && Trail(g, at, before)
      invariant Honest(g, items, style) && Distinct(items) ==> Honestly(items, style, offset, before, explicit)
      decreases MAX_SHARE_ITEMS + 1 - offset
    {
      hide Consistent, Says, Distinct, Honestly, Trail, FirstSeen, Verdict, Collected, LeadsTo, Reason;
      var answer := g(offset);
      if !answer.Page? {
        outcome := match answer
          case Interrupted => Cancelled
          case Raised(auth) => Failed(if auth then AuthFailure else ListingFailed)
          case AuthRefused => Failed(AuthFailure)
          case _ => Failed(ListingFailed);
        NotAPage(g, outcome, at, before, explicit);
        NeverHonest(g, items, style, offset, before, explicit);
        return outcome, at, before, explicit;
      }
      var turn := ReadPage(g, offset, answer.hints, answer.records, ids, explicit, before, items, style);
      if turn.Return? {
        if turn.outcome.Listed? {
          CollectedIsDistinct(g, turn.outcome.ids, at, before);
        }
        return turn.outcome, at, before, explicit;
      }
      TrailGoesOn(g, offset, turn.offset, before);
      before := before + IdsOf(answer.records.value);
      ids, offset, explicit := turn.ids, turn.offset, turn.explicit;
      at := offset;
    }
    VerdictTooLarge(items, style);
    return Failed(TooLarge), at, before, explicit;
  }

  lemma NotAPage(g: Gateway, outcome: Outcome, at: nat, before: seq<string>, explicit: bool)
    requires !g(at).Page?
    requires outcome == match g(at)
      case Interrupted => Cancelled
      case Raised(auth) => Failed(if auth then AuthFailure else ListingFailed)
      case AuthRefused => Failed(AuthFailure)
      case _ => Failed(ListingFailed)
    ensures Reason(g, outcome, at, before, explicit)
  {
  }

  /** Only honest servers always answer with pages. */
  lemma NeverHonest(g: Gateway, items: seq<string>, style: Style, offset: nat, read: seq<string>, explicit: bool)
    requires !g(offset).Page?
    ensures !(Honest(g, items, style) && Honestly(items, style, offset, read, explicit))
  {
  }
}
