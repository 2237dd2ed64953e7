/**
 * The transaction API: create, list, summary, update and delete, as operations on
 * an id-to-record store that scope every request by the authenticated user.
 */
module TransactionRoutes {
  import opened Wrappers
  import opened TransactionModel

  /** The fields the create handler takes from the request body; `None` is a falsy value. */
  datatype CreateBody = CreateBody(
    kind: Option<string>,
    category: Option<string>,
    amount: Option<int>,
    description: Option<string>,
    date: Option<Instant>)

  /** An update body given to `$set`: the schema paths present in the request. */
  datatype Patch = Patch(
    user: Option<UserId>,
    kind: Option<string>,
    category: Option<string>,
    amount: Option<int>,
    description: Option<string>,
    date: Option<Instant>,
    createdAt: Option<Instant>)

  /** What a handler sends back. */
  datatype Reply =
    | Json(record: Transaction)       // 200 with the saved or updated record
    | Removed                         // 200 with 'Transaction removed'
    | NotFound                        // 404 'Transaction not found'
    | NotAuthorized                   // 401 'User not authorized'
    | ServerError                     // 500 'Server error'

  function StatusCode(r: Reply): (code: int)
    ensures code == 200 <==> (r.Json? || r.Removed?)
    ensures code == 404 <==> r.NotFound?
    ensures code == 401 <==> r.NotAuthorized?
    ensures code == 500 <==> r.ServerError?
  {
    match r
    case Json(_) => 200
    case Removed => 200
    case NotFound => 404
    case NotAuthorized => 401
    case ServerError => 500
  }

  /** The body of the summary reply. */
  datatype SummaryBody = SummaryBody(income: int, expenses: int, balance: int)

  /** The constructor arguments of the create handler: owner stamped, date defaulted. */
  function CreateFields(user: UserId, body: CreateBody, now: Instant): (f: Fields)
    ensures f.user == Some(user) && f.createdAt.None?
    ensures f.kind == body.kind && f.category == body.category
    ensures f.amount == body.amount && f.description == body.description
    ensures f.date == Some(if body.date.Some? then body.date.value else now)
  {
    Fields(Some(user), body.kind, body.category, body.amount, body.description,
           Some(match body.date case Some(d) => d case None => now), None)
  }

  /**
   * `$set` of the request body: every path present in the patch is overwritten
   * (through the trim setter for category and description); nothing is validated.
   */
  function ApplyPatch(t: Transaction, p: Patch): (r: Transaction)
    ensures r.id == t.id
    ensures IsTrimmed(t.category) ==> IsTrimmed(r.category)
    ensures IsTrimmed(t.description) ==> IsTrimmed(r.description)
  {
    Transaction(
      t.id,
      match p.user case Some(v) => v case None => t.user,
      match p.kind case Some(v) => v case None => t.kind,
      match p.category case Some(v) => Trim(v) case None => t.category,
      match p.amount case Some(v) => v case None => t.amount,
      match p.description case Some(v) => Trim(v) case None => t.description,
      match p.date case Some(v) => v case None => t.date,
      match p.createdAt case Some(v) => v case None => t.createdAt)
  }

  /** `$set` overwrites exactly the paths present in the body and keeps every other one. */
  lemma ApplyPatchOverwritesPresentFields(t: Transaction, p: Patch)
    ensures var r := ApplyPatch(t, p);
      && r.user == (if p.user.Some? then p.user.value else t.user)
      && r.kind == (if p.kind.Some? then p.kind.value else t.kind)
      && r.category == (if p.category.Some? then Trim(p.category.value) else t.category)
      && r.amount == (if p.amount.Some? then p.amount.value else t.amount)
      && r.description == (if p.description.Some? then Trim(p.description.value) else t.description)
      && r.date == (if p.date.Some? then p.date.value else t.date)
      && r.createdAt == (if p.createdAt.Some? then p.createdAt.value else t.createdAt)
  {
  }

  const EmptyPatch := Patch(None, None, None, None, None, None, None)

  /** An empty body changes nothing, and applying the same body twice is applying it once. */
  lemma ApplyPatchIdentityAndIdempotent(t: Transaction, p: Patch)
    ensures ApplyPatch(t, EmptyPatch) == t
    ensures ApplyPatch(ApplyPatch(t, p), p) == ApplyPatch(t, p)
  {
  }

  /** Because updates are not validated, an update can store a record that breaks the schema. */
  lemma UpdateCanBreakSchema()
    ensures var t := Transaction(1, 7, Income, "Salary", 500, "June pay", 0, 0);
      && MeetsSchema(t)
      && !MeetsSchema(ApplyPatch(t, EmptyPatch.(amount := Some(-1))))
      && !MeetsSchema(ApplyPatch(t, EmptyPatch.(kind := Some("refund"))))
  {
    var t := Transaction(1, 7, Income, "Salary", 500, "June pay", 0, 0);
    assert IsTrimmed(t.category) by { assert t.category[0] == 'S' && t.category[5] == 'y'; }
    assert IsTrimmed(t.description) by { assert t.description[0] == 'J' && t.description[7] == 'y'; }
    assert "refund" != Income && "refund" != Expense by {
      assert "refund"[0] == 'r';
    }
  }

  /**
   * The record the create handler saves under `id`: owned by the authenticated
   * user, dated by the body or else `now`, created `now`, and meeting the schema;
   * or the validation errors.
   */
  function NewRecord(id: Id, user: UserId, body: CreateBody, now: Instant): (r: Result<Transaction, set<Path>>)
    ensures r.Ok? ==>
      && r.value.id == id && r.value.user == user && MeetsSchema(r.value)
      && r.value.date == (if body.date.Some? then body.date.value else now)
      && r.value.createdAt == now
      && Some(r.value.kind) == body.kind && Some(r.value.amount) == body.amount
      && Some(r.value.category) == TrimOption(body.category)
      && Some(r.value.description) == TrimOption(body.description)
    ensures r.Err? ==> r.error != {}
    ensures r.Ok? <==>
      && body.kind.Some? && (body.kind.value == Income || body.kind.value == Expense)
      && body.category.Some? && Trim(body.category.value) != []
      && body.amount.Some? && body.amount.value >= 0
      && body.description.Some? && Trim(body.description.value) != []
      && |Trim(body.description.value)| <= MaxDescriptionLength
  {
    ValidateAcceptsExactly(id, CreateFields(user, body, now), now);
    Validate(Construct(id, CreateFields(user, body, now), now))
  }

  // ---------------------------------------------------------------------------
  // Per-user totals over the store (the `$match` / `$group` / `$sum` pipeline)
  // ---------------------------------------------------------------------------

  /** What one record adds to the total of `user`'s records of `kind`. */
  function Contribution(t: Transaction, user: UserId, kind: string): int {
    if t.user == user && t.kind == kind then t.amount else 0
  }

  /** The sum of the contributions of the records under `ids`. */
  ghost function SumOver(m: map<Id, Transaction>, ids: set<Id>, user: UserId, kind: string): int
    requires ids <= m.Keys
    decreases ids
  {
    if ids == {} then 0
    else
      var id :| id in ids;
      Contribution(m[id], user, kind) + SumOver(m, ids - {id}, user, kind)
  }

  /** Any record may be taken out of the sum first. */
  lemma {:induction false} SumOverRemove(m: map<Id, Transaction>, ids: set<Id>, x: Id, user: UserId, kind: string)
    requires ids <= m.Keys && x in ids
    ensures SumOver(m, ids, user, kind) == Contribution(m[x], user, kind) + SumOver(m, ids - {x}, user, kind)
    decreases ids
  {
    var y :| y in ids && SumOver(m, ids, user, kind) == Contribution(m[y], user, kind) + SumOver(m, ids - {y}, user, kind);
    if y != x {
      SumOverRemove(m, ids - {y}, x, user, kind);
      SumOverRemove(m, ids - {x}, y, user, kind);
      assert ids - {y} - {x} == ids - {x} - {y};
    }
  }

  /** The sum depends only on the records under `ids`. */
  lemma {:induction false} SumOverFrame(m1: map<Id, Transaction>, m2: map<Id, Transaction>, ids: set<Id>, user: UserId, kind: string)
    requires ids <= m1.Keys && ids <= m2.Keys
    requires forall id :: id in ids ==> m1[id] == m2[id]
    ensures SumOver(m1, ids, user, kind) == SumOver(m2, ids, user, kind)
    decreases ids
  {
    if ids != {} {
      var y :| y in ids && SumOver(m1, ids, user, kind) == Contribution(m1[y], user, kind) + SumOver(m1, ids - {y}, user, kind);
      SumOverFrame(m1, m2, ids - {y}, user, kind);
      SumOverRemove(m2, ids, y, user, kind);
    }
  }

  /** The total of `user`'s records of `kind` in the store. */
  ghost function Total(m: map<Id, Transaction>, user: UserId, kind: string): int {
    SumOver(m, m.Keys, user, kind)
  }

  /** With no record of that user and kind, the total is 0 (the empty `$group` result). */
  lemma {:induction false} TotalZeroWithoutMatches(m: map<Id, Transaction>, ids: set<Id>, user: UserId, kind: string)
    requires ids <= m.Keys
    requires forall id :: id in ids ==> m[id].user != user || m[id].kind != kind
    ensures SumOver(m, ids, user, kind) == 0
    decreases ids
  {
    if ids != {} {
      var y :| y in ids;
      SumOverRemove(m, ids, y, user, kind);
      TotalZeroWithoutMatches(m, ids - {y}, user, kind);
    }
  }

  /** Amounts that are never negative give a total that is never negative. */
  lemma {:induction false} TotalNonNegative(m: map<Id, Transaction>, ids: set<Id>, user: UserId, kind: string)
    requires ids <= m.Keys
    requires forall id :: id in ids ==> m[id].amount >= 0
    ensures SumOver(m, ids, user, kind) >= 0
    decreases ids
  {
    if ids != {} {
      var y :| y in ids;
      SumOverRemove(m, ids, y, user, kind);
      TotalNonNegative(m, ids - {y}, user, kind);
    }
  }

  /** Storing a record under a new id adds exactly its contribution. */
  lemma TotalInsert(m: map<Id, Transaction>, id: Id, t: Transaction, user: UserId, kind: string)
    requires id !in m
    ensures Total(m[id := t], user, kind) == Total(m, user, kind) + Contribution(t, user, kind)
  {
    var m' := m[id := t];
    assert m'.Keys - {id} == m.Keys;
    SumOverRemove(m', m'.Keys, id, user, kind);
    SumOverFrame(m', m, m.Keys, user, kind);
  }

  /** Removing a record takes away exactly its contribution. */
  lemma TotalRemove(m: map<Id, Transaction>, id: Id, user: UserId, kind: string)
    requires id in m
    ensures Total(m - {id}, user, kind) == Total(m, user, kind) - Contribution(m[id], user, kind)
  {
    var m' := m - {id};
    assert m.Keys - {id} == m'.Keys;
    SumOverRemove(m, m.Keys, id, user, kind);
    SumOverFrame(m, m', m'.Keys, user, kind);
  }

  /** Replacing a record swaps its old contribution for the new one. */
  lemma TotalReplace(m: map<Id, Transaction>, id: Id, t: Transaction, user: UserId, kind: string)
    requires id in m
    ensures Total(m[id := t], user, kind)
         == Total(m, user, kind) - Contribution(m[id], user, kind) + Contribution(t, user, kind)
  {
    TotalRemove(m, id, user, kind);
    TotalInsert(m - {id}, id, t, user, kind);
    assert (m - {id})[id := t] == m[id := t];
  }

  /** The records of other users, or of the other kind, never change a user's total. */
  lemma TotalIgnoresOthers(m: map<Id, Transaction>, id: Id, t: Transaction, user: UserId, kind: string)
    requires id !in m
    requires t.user != user || t.kind != kind
    ensures Total(m[id := t], user, kind) == Total(m, user, kind)
  {
    TotalInsert(m, id, t, user, kind);
  }

  // ---------------------------------------------------------------------------
  // The summary pipeline's `$match` on the owner
  // ---------------------------------------------------------------------------

  /**
   * The owner value a `$match` stage is given. Records store their owner as an
   * ObjectId; the authenticated user's id arrives as its string form.
   */
  datatype MatchKey = ObjectIdKey(oid: UserId) | StringKey(text: UserId)

  /**
   * Aggregation stages are not cast to the schema, so `$match` compares BSON
   * values as they are: a string never equals a stored ObjectId.
   */
  predicate MatchesOwner(t: Transaction, key: MatchKey) {
    key == ObjectIdKey(t.user)
  }

  /** What one record adds to the `$group` total of the records `$match` selects. */
  function MatchedContribution(t: Transaction, key: MatchKey, kind: string): int {
    if MatchesOwner(t, key) && t.kind == kind then t.amount else 0
  }

  /** The `$sum` over the records under `ids` that the `$match` stage selects. */
  ghost function MatchedSum(m: map<Id, Transaction>, ids: set<Id>, key: MatchKey, kind: string): int
    requires ids <= m.Keys
    decreases ids
  {
    if ids == {} then 0
    else
      var id :| id in ids;
      MatchedContribution(m[id], key, kind) + MatchedSum(m, ids - {id}, key, kind)
  }

  /** The summary reply the two pipelines produce for a given owner key. */
  ghost function AggregateSummary(m: map<Id, Transaction>, key: MatchKey): (s: SummaryBody)
    ensures s.balance == s.income - s.expenses
  {
    var income := MatchedSum(m, m.Keys, key, Income);
    var expenses := MatchedSum(m, m.Keys, key, Expense);
    SummaryBody(income, expenses, income - expenses)
  }

  /** Matching on the string form of the id selects no record, so every sum is 0. */
  lemma {:induction false} MatchedSumOfStringKey(m: map<Id, Transaction>, ids: set<Id>, user: UserId, kind: string)
    requires ids <= m.Keys
    ensures MatchedSum(m, ids, StringKey(user), kind) == 0
    decreases ids
  {
    if ids != {} {
      var y :| y in ids && MatchedSum(m, ids, StringKey(user), kind)
        == MatchedContribution(m[y], StringKey(user), kind) + MatchedSum(m, ids - {y}, StringKey(user), kind);
      MatchedSumOfStringKey(m, ids - {y}, user, kind);
      assert MatchedContribution(m[y], StringKey(user), kind) == 0;
      assert MatchedSum(m, ids - {y}, StringKey(user), kind) == 0;
    }
  }

  /** Matching on the ObjectId selects exactly the user's records, so the sum is their total. */
  lemma {:induction false} MatchedSumOfObjectIdKey(m: map<Id, Transaction>, ids: set<Id>, user: UserId, kind: string)
    requires ids <= m.Keys
    ensures MatchedSum(m, ids, ObjectIdKey(user), kind) == SumOver(m, ids, user, kind)
    decreases ids
  {
    if ids != {} {
      var y :| y in ids && MatchedSum(m, ids, ObjectIdKey(user), kind)
        == MatchedContribution(m[y], ObjectIdKey(user), kind) + MatchedSum(m, ids - {y}, ObjectIdKey(user), kind);
      MatchedSumOfObjectIdKey(m, ids - {y}, user, kind);
      SumOverRemove(m, ids, y, user, kind);
      assert MatchedContribution(m[y], ObjectIdKey(user), kind) == Contribution(m[y], user, kind);
      assert MatchedSum(m, ids - {y}, ObjectIdKey(user), kind) == SumOver(m, ids - {y}, user, kind);
    }
  }

  /** As written, the handler matches on the string id and replies with zeros whatever is stored. */
  lemma SummaryAsWrittenIsZero(m: map<Id, Transaction>, user: UserId)
    ensures AggregateSummary(m, StringKey(user)) == SummaryBody(0, 0, 0)
  {
    MatchedSumOfStringKey(m, m.Keys, user, Income);
    MatchedSumOfStringKey(m, m.Keys, user, Expense);
  }

  /** Matching on the ObjectId gives the user's per-kind totals and their difference. */
  lemma SummaryCorrected(m: map<Id, Transaction>, user: UserId)
    ensures AggregateSummary(m, ObjectIdKey(user))
         == SummaryBody(Total(m, user, Income), Total(m, user, Expense),
                        Total(m, user, Income) - Total(m, user, Expense))
  {
    MatchedSumOfObjectIdKey(m, m.Keys, user, Income);
    MatchedSumOfObjectIdKey(m, m.Keys, user, Expense);
  }

  /** A user with one stored income of 500 is told 0 as written, and 500 once the match is corrected. */
  lemma SummaryAsWrittenMissesIncome()
    ensures var m := map[1 := Transaction(1, 7, Income, "Salary", 500, "June pay", 0, 0)];
      && Total(m, 7, Income) == 500
      && AggregateSummary(m, StringKey(7)).income == 0
      && AggregateSummary(m, ObjectIdKey(7)).income == 500
  {
    var m := map[1 := Transaction(1, 7, Income, "Salary", 500, "June pay", 0, 0)];
    assert m.Keys == {1};
    SumOverRemove(m, m.Keys, 1, 7, Income);
    assert m.Keys - {1} == {};
    SummaryAsWrittenIsZero(m, 7);
    SummaryCorrected(m, 7);
  }

  // ---------------------------------------------------------------------------
  // Listing order
  // ---------------------------------------------------------------------------

  /** Ordered by date, newest first (`sort({ date: -1 })`). */
  predicate NewestFirst(s: seq<Transaction>) {
    forall i, j :: 0 <= i < j < |s| ==> s[i].date >= s[j].date
  }

  /** Where `t` goes in a newest-first sequence: before the first strictly older record. */
  function InsertPosition(s: seq<Transaction>, t: Transaction): (k: nat)
    ensures k <= |s|
    ensures forall i :: 0 <= i < k ==> s[i].date > t.date
    ensures NewestFirst(s) ==> forall i :: k <= i < |s| ==> s[i].date <= t.date
  {
    if s == [] || s[0].date <= t.date then 0 else 1 + InsertPosition(s[1..], t)
  }

  function InsertByDate(s: seq<Transaction>, t: Transaction): (r: seq<Transaction>)
    requires NewestFirst(s)
    ensures r == s[..InsertPosition(s, t)] + [t] + s[InsertPosition(s, t)..]
    ensures NewestFirst(r)
  {
    var k := InsertPosition(s, t);
    s[..k] + [t] + s[k..]
  }

  function IdsOf(s: seq<Transaction>): set<Id> {
    set t | t in s :: t.id
  }

  predicate DistinctIds(s: seq<Transaction>) {
    forall i, j :: 0 <= i < j < |s| ==> s[i].id != s[j].id
  }

  /** The element at each position after inserting `t` at position `k`. */
  lemma InsertedAt(s: seq<Transaction>, t: Transaction, k: nat)
    requires k <= |s|
    ensures |s[..k] + [t] + s[k..]| == |s| + 1
    ensures forall i :: 0 <= i < |s| + 1 ==>
      (s[..k] + [t] + s[k..])[i] == (if i < k then s[i] else if i == k then t else s[i - 1])
  {
  }

  /** Inserting adds `t` and nothing else. */
  lemma InsertByDateElements(s: seq<Transaction>, t: Transaction)
    requires NewestFirst(s)
    ensures forall x :: x in InsertByDate(s, t) <==> x in s || x == t
    ensures IdsOf(InsertByDate(s, t)) == IdsOf(s) + {t.id}
  {
    var k := InsertPosition(s, t);
    assert s == s[..k] + s[k..];
    assert InsertByDate(s, t) == s[..k] + [t] + s[k..];
  }

  /** Inserting a record whose id is new keeps the ids distinct. */
  lemma InsertByDateDistinct(s: seq<Transaction>, t: Transaction)
    requires NewestFirst(s) && DistinctIds(s) && t.id !in IdsOf(s)
    ensures DistinctIds(InsertByDate(s, t))
  {
    var k := InsertPosition(s, t);
    var r := InsertByDate(s, t);
    InsertedAt(s, t, k);
    forall i, j | 0 <= i < j < |r| ensures r[i].id != r[j].id {
      if i == k {
        assert r[j] == s[j - 1] && r[j] in s;
      } else if j == k {
        assert r[i] == s[i] && r[i] in s;
      }
    }
  }

  // ---------------------------------------------------------------------------
  // The store
  // ---------------------------------------------------------------------------

  /** Every record is filed under its own id, below the next id, with its text paths trimmed. */
  ghost predicate WellFormed(records: map<Id, Transaction>, nextId: Id) {
    forall id :: id in records ==>
      && records[id].id == id
      && id < nextId
      && IsTrimmed(records[id].category)
      && IsTrimmed(records[id].description)
  }

  /** Filing a trimmed record under the next id keeps the store well formed, and the id is new. */
  lemma WellFormedInsert(records: map<Id, Transaction>, nextId: Id, t: Transaction)
    requires WellFormed(records, nextId)
    requires t.id == nextId && IsTrimmed(t.category) && IsTrimmed(t.description)
    ensures t.id !in records
    ensures WellFormed(records[t.id := t], nextId + 1)
  {
  }

  class TransactionStore {
    /** The stored records, keyed by their id. */
    var records: map<Id, Transaction>
    /** The id the next created record receives (ObjectIds are never reused). */
    var nextId: Id

    /** Every record is filed under its own id, and its text paths are stored trimmed. */
    ghost predicate Valid()
      reads this
    {
      WellFormed(records, nextId)
    }

    constructor ()
      ensures Valid() && records == map[] && nextId == 0
    {
      records := map[];
      nextId := 0;
    }

    /**
     * POST: stores the record `NewRecord` builds when it passes validation;
     * a failed validation is a 500 and stores nothing.
     */
    method Create(user: UserId, body: CreateBody, now: Instant) returns (reply: Reply)
      requires Valid()
      modifies this
      ensures Valid()
      ensures NewRecord(old(nextId), user, body, now).Ok? ==>
        var t := NewRecord(old(nextId), user, body, now).value;
        reply == Json(t) && t.id !in old(records) && records == old(records)[t.id := t]
      ensures NewRecord(old(nextId), user, body, now).Err? ==>
        reply == ServerError && records == old(records)
      ensures nextId == old(nextId) + (if NewRecord(old(nextId), user, body, now).Ok? then 1 else 0)
    {
      var result := NewRecord(nextId, user, body, now);
      if result.Ok? {
        var t := result.value;
        WellFormedInsert(records, nextId, t);
        records := records[t.id := t];
        nextId := nextId + 1;
        reply := Json(t);
      } else {
        reply := ServerError;
      }
    }

    /** GET: the records owned by `user`, each once, newest first. */
    method List(user: UserId) returns (listed: seq<Transaction>)
      requires Valid()
      ensures forall t :: t in listed ==> t.id in records && records[t.id] == t && t.user == user
      ensures forall id :: id in records && records[id].user == user ==> id in IdsOf(listed)
      ensures DistinctIds(listed)
      ensures NewestFirst(listed)
    {
      listed := [];
      var pending := records.Keys;
      while pending != {}
        invariant pending <= records.Keys
        invariant forall t :: t in listed ==>
          t.id in records && t.id !in pending && records[t.id] == t && t.user == user
        invariant forall id :: id in records && id !in pending && records[id].user == user ==> id in IdsOf(listed)
        invariant DistinctIds(listed)
        invariant NewestFirst(listed)
        decreases pending
      {
        var id :| id in pending;
        var t := records[id];
        if t.user == user {
          InsertByDateElements(listed, t);
          InsertByDateDistinct(listed, t);
          listed := InsertByDate(listed, t);
        }
        pending := pending - {id};
      }
    }

    /**
     * GET /summary, with the owner matched as an ObjectId: per-kind totals of
     * `user`'s records and their difference.
     */
    ghost function Summary(user: UserId): (s: SummaryBody)
      reads this
      ensures s.balance == s.income - s.expenses
      ensures s.income == Total(records, user, Income) && s.expenses == Total(records, user, Expense)
      ensures s == AggregateSummary(records, ObjectIdKey(user))
    {
      SummaryCorrected(records, user);
      var income := Total(records, user, Income);
      var expenses := Total(records, user, Expense);
      SummaryBody(income, expenses, income - expenses)
    }

    /**
     * PUT: 404 when no record has that id, else 401 when `user` does not own it,
     * else the record is overwritten by the body and returned.
     */
    method Update(user: UserId, id: Id, patch: Patch) returns (reply: Reply)
      requires Valid()
      modifies this
      ensures Valid() && nextId == old(nextId)
      ensures id !in old(records) ==> reply == NotFound && records == old(records)
      ensures id in old(records) && old(records)[id].user != user ==>
        reply == NotAuthorized && records == old(records)
      ensures id in old(records) && old(records)[id].user == user ==>
        var updated := ApplyPatch(old(records)[id], patch);
        reply == Json(updated) && records == old(records)[id := updated]
    {
      if id !in records {
        return NotFound;
      }
      if records[id].user != user {
        return NotAuthorized;
      }
      var updated := ApplyPatch(records[id], patch);
      records := records[id := updated];
      reply := Json(updated);
    }

    /**
     * DELETE: 404 when no record has that id, else 401 when `user` does not own it,
     * else that record, and only it, is removed.
     */
    method Delete(user: UserId, id: Id) returns (reply: Reply)
      requires Valid()
      modifies this
      ensures Valid() && nextId == old(nextId)
      ensures id !in old(records) ==> reply == NotFound && records == old(records)
      ensures id in old(records) && old(records)[id].user != user ==>
        reply == NotAuthorized && records == old(records)
      ensures id in old(records) && old(records)[id].user == user ==>
        reply == Removed && records == old(records) - {id}
    {
      if id !in records {
        return NotFound;
      }
      if records[id].user != user {
        return NotAuthorized;
      }
      records := records - {id};
      reply := Removed;
    }
  }
}
