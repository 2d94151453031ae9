/**
  Honest remotes exist for every well-formed tree and every capacity, so the theorems about
  them speak about something.
 */
module C03Witness {
  import opened Wrappers
  import opened Decimals
  import opened C03Model
  import opened C03Tree
  import opened C03Live

  ghost predicate NormalKeys(t: Tree) {
    forall id | id in t :: IsId(id)
  }

  ghost function Spelling(id: Id): (raw: RawId)
    requires IsId(id)
    ensures NormalizeId(raw) == Some(id)
  {
    var raw :| NormalizeId(raw) == Some(id);
    raw
  }

  /** A set of entries in some order, each once. */
  ghost function Ordered(s: set<Entry>): (order: seq<Entry>)
    ensures Distinct(order) && forall e :: e in order <==> e in s
  {
    if s == {} then []
    else
      var e :| e in s;
      [e] + Ordered(s - {e})
  }

  /** Beyond some number no decimal spelling is in a finite set. */
  lemma {:induction false} SpellingsRunOut(s: set<string>) returns (bound: nat)
    ensures forall n: nat | n >= bound :: Decimal(n) !in s
  {
    if s == {} {
      bound := 0;
    } else {
      var x :| x in s;
      bound := SpellingsRunOut(s - {x});
      if m: nat :| Decimal(m) == x {
        bound := bound + m + 1;
        forall n: nat | n >= bound ensures Decimal(n) != x {
          if Decimal(n) == x {
            DecimalInjective(m, n);
          }
        }
      }
    }
  }

  ghost function Used(t: Tree, parent: Id): set<Id> {
    t.Keys + (set id | id in t :: t[id].parent) + {parent}
  }

  lemma FreshNumberExists(t: Tree, parent: Id)
    ensures exists n: nat :: n > 0 && Decimal(n) !in Used(t, parent)
  {
    var bound := SpellingsRunOut(Used(t, parent));
    assert bound + 1 > 0 && Decimal(bound + 1) !in Used(t, parent);
  }

  ghost function HonestExecute(t: Tree, request: Request): (answer: WriteAnswer)
    ensures ExecutesHonestly(t, request, answer)
  {
    if request.Mkdir? then
      FreshNumberExists(t, request.parent);
      var n: nat :| n > 0 && Decimal(n) !in Used(t, request.parent);
      assert forall id | id in t :: t[id].parent in Used(t, request.parent);
      Received(Receipt(Succeeded, Some(NumberId(n))))
    else Received(Receipt(Succeeded, None))
  }

  ghost function SpellingOf(e: Entry): RawEntry
    requires IsId(e.fileId) && IsId(e.parentId)
  {
    RawEntry(Spelling(e.fileId), Spelling(e.parentId), Some(e.name), Some(e.isDirectory))
  }

  ghost predicate Spellable(s: seq<Entry>, parent: Id) {
    forall i | 0 <= i < |s| :: IsId(s[i].fileId) && s[i].parentId == parent && IsId(parent)
  }

  ghost function Spelled(s: seq<Entry>, parent: Id): (raw: seq<RawEntry>)
    requires Spellable(s, parent) && Distinct(s)
    ensures Readable(raw, parent) && Shown(raw, parent) == set e | e in s
  {
    var raw := seq(|s|, i requires 0 <= i < |s| => SpellingOf(s[i]));
    assert forall i | 0 <= i < |s| :: NormalizeEntry(raw[i]) == Some(s[i]);
    ShownIs(raw, parent, s);
    raw
  }

  ghost function HonestList(t: Tree, parent: Id, fits: nat -> bool): (listing: ListAnswer)
    ensures NormalKeys(t) && IsId(parent) ==> ListsHonestly(t, parent, listing, fits)
  {
    if NormalKeys(t) && IsId(parent) then
      var s := Ordered(EntriesUnder(t, parent));
      assert Spellable(s, parent) by {
        forall i | 0 <= i < |s| ensures IsId(s[i].fileId) && s[i].parentId == parent {
          assert s[i] in s;
        }
      }
      Listing(Spelled(s, parent), fits(|EntriesUnder(t, parent)|), 1)
    else ListRaised
  }

  lemma {:induction false} KeysStayNormal(t: Tree, h: History)
    requires NormalKeys(t)
    ensures NormalKeys(TreeAfter(t, h))
  {
    if h != [] {
      KeysStayNormal(t, h[..|h| - 1]);
      var last := h[|h| - 1];
      if last.Wrote? && last.answer.Received? && last.answer.receipt.fileId.Some? {
        assert last.answer.receipt.Identity().Some? ==> IsId(last.answer.receipt.Identity().value);
      }
    }
  }

  lemma HonestRemoteExists(t: Tree, fits: nat -> bool) returns (env: Environment)
    requires NormalKeys(t)
    ensures Honest(env, t, fits)
  {
    env := Environment(
      (h: History, request: Request) => HonestExecute(TreeAfter(t, h), request),
      (h: History, parent: Id) => HonestList(TreeAfter(t, h), parent, fits),
      (h: History) => false);
    forall h: History ensures NormalKeys(TreeAfter(t, h)) {
      KeysStayNormal(t, h);
    }
  }

  // ------------------------------------------------------------------ over the live listing

  /** Every entry of the directory has ids within the length that text may have. */
  ghost predicate Writable(t: Tree, parent: Id) {
    forall e | e in EntriesUnder(t, parent) ::
      NormalizeId(TextId(e.fileId)) == Some(e.fileId) && NormalizeId(TextId(e.parentId)) == Some(e.parentId)
  }

  lemma OrderedLists(t: Tree, parent: Id)
    requires Writable(t, parent)
    ensures Lists(Ordered(EntriesUnder(t, parent)), t, parent)
  {
    var s := Ordered(EntriesUnder(t, parent));
    forall i, j | 0 <= i < j < |s| ensures s[i].fileId != s[j].fileId {
      assert s[i] in s && s[j] in s;
    }
  }

  /** What listing `parent` gives over the live loop; ids too long to be written as text never
      get into a drive, only into hypothetical histories. */
  ghost function ListLive(t: Tree, parent: Id): (listing: ListAnswer)
    ensures NormalKeys(t) && IsId(parent) ==> ListsHonestly(t, parent, listing, LiveFits)
  {
    if Writable(t, parent) then
      OrderedLists(t, parent);
      LiveListIsHonest(Ordered(EntriesUnder(t, parent)), parent, t);
      LiveList(Ordered(EntriesUnder(t, parent)))
    else HonestList(t, parent, LiveFits)
  }

  /** A transport whose listings are the live loop's over an honest client is an honest remote
      with room for four entries. */
  lemma LiveRemoteExists(t: Tree) returns (env: Environment)
    requires NormalKeys(t)
    ensures Honest(env, t, LiveFits)
    ensures forall h, parent | Writable(TreeAfter(t, h), parent) ::
      exists s :: Lists(s, TreeAfter(t, h), parent) && env.list(h, parent) == LiveList(s)
  {
    env := Environment(
      (h: History, request: Request) => HonestExecute(TreeAfter(t, h), request),
      (h: History, parent: Id) => ListLive(TreeAfter(t, h), parent),
      (h: History) => false);
    hide ListsHonestly, ExecutesHonestly, Lists, Writable, TreeAfter, LiveList, NormalKeys, IsId, HonestList, HonestExecute;
    forall h: History ensures NormalKeys(TreeAfter(t, h)) {
      KeysStayNormal(t, h);
    }
    forall h: History, parent | Writable(TreeAfter(t, h), parent)
      ensures exists s :: Lists(s, TreeAfter(t, h), parent) && env.list(h, parent) == LiveList(s)
    {
      OrderedLists(TreeAfter(t, h), parent);
    }
  }
}
