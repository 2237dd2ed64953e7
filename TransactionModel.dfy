/**
 * The transaction record and its schema: field constraints, trimming setters and
 * defaults, and the validation that runs when a new record is saved.
 */
module TransactionModel {
  import opened Wrappers

  /** Identity of an authenticated user (an ObjectId). */
  type UserId = nat
  /** Identity of a stored transaction record (its `_id`). */
  type Id = nat
  /** A point in time, in milliseconds since the epoch (a JavaScript `Date`). */
  type Instant = int
  /** A calendar day, the key the dashboard groups records under. */
  type Day = int

  const Income: string := "income"
  const Expense: string := "expense"
  const MaxDescriptionLength: nat := 100
  const MillisPerDay: nat := 86_400_000

  /** The day a point in time falls on (time zones are not modelled). */
  function DayOf(date: Instant): Day {
    date / MillisPerDay
  }

  /** A stored transaction. `kind` is the schema's `type` path. */
  datatype Transaction = Transaction(
    id: Id,
    user: UserId,
    kind: string,
    category: string,
    amount: int,
    description: string,
    date: Instant,
    createdAt: Instant)

  // ---------------------------------------------------------------------------
  // Trimming (the `trim: true` setter, JavaScript's String.prototype.trim)
  // ---------------------------------------------------------------------------

  /**
   * The characters JavaScript's `trim` strips: the white space characters (tab,
   * vertical tab, form feed, space, no-break space, zero width no-break space and
   * the space separators) and the line terminators (line feed, carriage return,
   * line and paragraph separators).
   */
  predicate IsWhitespace(c: char) {
    || ('\t' <= c <= '\r')
    || c == ' ' || c == '\U{00A0}' || c == '\U{1680}'
    || ('\U{2000}' <= c <= '\U{200A}')
    || c == '\U{2028}' || c == '\U{2029}' || c == '\U{202F}' || c == '\U{205F}'
    || c == '\U{3000}' || c == '\U{FEFF}'
  }

  /** Every character of `s` from index `lo` up to (not including) `hi` is white space. */
  predicate WhitespaceBetween(s: string, lo: int, hi: int)
    requires 0 <= lo <= hi <= |s|
  {
    forall i :: lo <= i < hi ==> IsWhitespace(s[i])
  }

  /** Neither end of `s` is white space. */
  predicate IsTrimmed(s: string) {
    s == [] || (!IsWhitespace(s[0]) && !IsWhitespace(s[|s| - 1]))
  }

  /** The index of the first character at or after `k` that is not white space, or `|s|`. */
  function TrimStart(s: string, k: nat): (start: nat)
    requires k <= |s|
    ensures k <= start <= |s|
    ensures WhitespaceBetween(s, k, start)
    ensures start < |s| ==> !IsWhitespace(s[start])
    decreases |s| - k
  {
    if k < |s| && IsWhitespace(s[k]) then TrimStart(s, k + 1) else k
  }

  /** The index just past the last character before `end` that is not white space, but no lower than `start`. */
  function TrimEnd(s: string, start: nat, end: nat): (stop: nat)
    requires start <= end <= |s|
    ensures start <= stop <= end
    ensures WhitespaceBetween(s, stop, end)
    ensures stop > start ==> !IsWhitespace(s[stop - 1])
    decreases end
  {
    if end > start && IsWhitespace(s[end - 1]) then TrimEnd(s, start, end - 1) else end
  }

  /** `s` without white space at either end. */
  function Trim(s: string): (r: string)
    ensures IsTrimmed(r)
    ensures IsTrimmed(s) ==> r == s
    ensures |r| <= |s|
  {
    var start := TrimStart(s, 0);
    s[start..TrimEnd(s, start, |s|)]
  }

  /** Trimming a value that the setter already trimmed changes nothing. */
  lemma TrimIdempotent(s: string)
    ensures Trim(Trim(s)) == Trim(s)
  {
  }

  /** The trimmed value is the input with only white space removed from its two ends. */
  lemma TrimRemovesOnlyEdges(s: string)
    ensures exists i ::
      && 0 <= i <= |s| - |Trim(s)|
      && s[i..i + |Trim(s)|] == Trim(s)
      && WhitespaceBetween(s, 0, i) && WhitespaceBetween(s, i + |Trim(s)|, |s|)
  {
    var start := TrimStart(s, 0);
    var stop := TrimEnd(s, start, |s|);
    assert Trim(s) == s[start..stop];
    assert WhitespaceBetween(s, 0, start) && WhitespaceBetween(s, start + |Trim(s)|, |s|);
  }

  // ---------------------------------------------------------------------------
  // The schema
  // ---------------------------------------------------------------------------

  /**
   * The constraints a saved record satisfies: the `type` enum, required non-empty
   * trimmed category and description, a non-negative amount and a description of
   * at most 100 characters. `user`, `date` and `createdAt` are always present
   * in a `Transaction`.
   */
  predicate MeetsSchema(t: Transaction) {
    && (t.kind == Income || t.kind == Expense)
    && t.category != [] && IsTrimmed(t.category)
    && t.amount >= 0
    && t.description != [] && IsTrimmed(t.description)
    && |t.description| <= MaxDescriptionLength
  }

  /** The values given to `new Transaction({...})`; `None` is an absent value. */
  datatype Fields = Fields(
    user: Option<UserId>,
    kind: Option<string>,
    category: Option<string>,
    amount: Option<int>,
    description: Option<string>,
    date: Option<Instant>,
    createdAt: Option<Instant>)

  /** A constructed document before validation: setters and defaults are applied. */
  datatype Document = Document(
    id: Id,
    user: Option<UserId>,
    kind: Option<string>,
    category: Option<string>,
    amount: Option<int>,
    description: Option<string>,
    date: Instant,
    createdAt: Instant)

  /** The paths a validation error can name. */
  datatype Path = UserPath | KindPath | CategoryPath | AmountPath | DescriptionPath

  function TrimOption(v: Option<string>): (r: Option<string>)
    ensures r.Some? <==> v.Some?
    ensures r.Some? ==> IsTrimmed(r.value) && |r.value| <= |v.value|
  {
    match v
    case None => None
    case Some(s) => Some(Trim(s))
  }

  /**
   * Constructing a document: `category` and `description` pass through the trim
   * setter, and `date` and `createdAt` default to the current time when absent.
   */
  function Construct(id: Id, f: Fields, now: Instant): (d: Document)
    ensures d.id == id && d.user == f.user && d.kind == f.kind && d.amount == f.amount
    ensures d.category == TrimOption(f.category) && d.description == TrimOption(f.description)
    ensures f.date.None? ==> d.date == now
    ensures f.date.Some? ==> d.date == f.date.value
    ensures f.createdAt.None? ==> d.createdAt == now
    ensures f.createdAt.Some? ==> d.createdAt == f.createdAt.value
  {
    Document(id, f.user, f.kind, TrimOption(f.category), f.amount, TrimOption(f.description),
             match f.date case Some(v) => v case None => now,
             match f.createdAt case Some(v) => v case None => now)
  }

  /**
   * The path names of every constraint the document breaks. Every validator
   * runs, and each one reports its own path only.
   */
  function Violations(d: Document): (r: set<Path>)
    ensures UserPath in r <==> d.user.None?
    ensures KindPath in r <==> d.kind !in {Some(Income), Some(Expense)}
    ensures CategoryPath in r <==> d.category.None? || d.category == Some([])
    ensures AmountPath in r <==> d.amount.None? || d.amount.value < 0
    ensures DescriptionPath in r <==>
      d.description.None? || d.description == Some([]) || |d.description.value| > MaxDescriptionLength
  {
    (if d.user.None? then {UserPath} else {})
    + (if d.kind.None? || (d.kind.value != Income && d.kind.value != Expense) then {KindPath} else {})
    + (if d.category.None? || d.category.value == [] then {CategoryPath} else {})
    + (if d.amount.None? || d.amount.value < 0 then {AmountPath} else {})
    + (if d.description.None? || d.description.value == []
          || |d.description.value| > MaxDescriptionLength then {DescriptionPath} else {})
  }

  /** The record a document stands for once every constraint holds. */
  function Record(d: Document): Transaction
    requires Violations(d) == {}
  {
    Transaction(d.id, d.user.value, d.kind.value, d.category.value, d.amount.value,
                d.description.value, d.date, d.createdAt)
  }

  /**
   * Validation on save: a document of trimmed values is accepted exactly when it
   * breaks no constraint, and the record it yields then meets the schema.
   */
  function Validate(d: Document): (r: Result<Transaction, set<Path>>)
    requires d.category.Some? ==> IsTrimmed(d.category.value)
    requires d.description.Some? ==> IsTrimmed(d.description.value)
    ensures r.Ok? ==> MeetsSchema(r.value)
    ensures r.Ok? ==>
      && r.value.id == d.id && Some(r.value.user) == d.user
      && Some(r.value.kind) == d.kind && Some(r.value.category) == d.category
      && Some(r.value.amount) == d.amount && Some(r.value.description) == d.description
      && r.value.date == d.date && r.value.createdAt == d.createdAt
    ensures r.Err? ==> r.error != {}
    ensures r.Err? ==> (d.amount.Some? && d.amount.value < 0 ==> AmountPath in r.error)
    ensures r.Err? ==> (d.kind.Some? && d.kind.value != Income && d.kind.value != Expense ==> KindPath in r.error)
    ensures r.Err? ==> (d.description.Some? && |d.description.value| > MaxDescriptionLength ==> DescriptionPath in r.error)
  {
    var errors := Violations(d);
    if errors == {} then Ok(Record(d)) else Err(errors)
  }

  /** The fields a stored record would be re-created from. */
  function FieldsOf(t: Transaction): Fields {
    Fields(Some(t.user), Some(t.kind), Some(t.category), Some(t.amount), Some(t.description),
           Some(t.date), Some(t.createdAt))
  }

  /**
   * Constructing and validating a document is the identity on records that meet
   * the schema, whatever the current time: nothing valid is rejected, and the
   * setters and defaults leave valid values alone.
   */
  lemma ConstructValidateRoundTrip(t: Transaction, now: Instant)
    requires MeetsSchema(t)
    ensures Validate(Construct(t.id, FieldsOf(t), now)) == Ok(t)
  {
    ConstructKeepsTrimmed(t, now);
    ValidateStoredDocument(t);
  }

  /** The document of a record: what constructing it from its own fields yields. */
  function DocumentOf(t: Transaction): Document {
    Document(t.id, Some(t.user), Some(t.kind), Some(t.category), Some(t.amount),
             Some(t.description), t.date, t.createdAt)
  }

  lemma ConstructKeepsTrimmed(t: Transaction, now: Instant)
    requires IsTrimmed(t.category) && IsTrimmed(t.description)
    ensures Construct(t.id, FieldsOf(t), now) == DocumentOf(t)
  {
  }

  lemma ValidateStoredDocument(t: Transaction)
    requires MeetsSchema(t)
    ensures Validate(DocumentOf(t)) == Ok(t)
  {
    assert Violations(DocumentOf(t)) == {};
  }

  /**
   * A record meets the schema exactly when its text paths are stored trimmed and
   * validating its document names no path.
   */
  lemma MeetsSchemaIffNoViolations(t: Transaction)
    ensures MeetsSchema(t) <==>
      IsTrimmed(t.category) && IsTrimmed(t.description) && Violations(DocumentOf(t)) == {}
  {
    if Violations(DocumentOf(t)) == {} {
      assert KindPath !in Violations(DocumentOf(t));
      assert CategoryPath !in Violations(DocumentOf(t));
      assert AmountPath !in Violations(DocumentOf(t));
      assert DescriptionPath !in Violations(DocumentOf(t));
    }
  }

  /** Any constructed document is accepted exactly when no constraint is broken. */
  lemma ValidateAcceptsExactly(id: Id, f: Fields, now: Instant)
    ensures var d := Construct(id, f, now);
      Validate(d).Ok? <==>
        && f.user.Some?
        && f.kind.Some? && (f.kind.value == Income || f.kind.value == Expense)
        && f.category.Some? && Trim(f.category.value) != []
        && f.amount.Some? && f.amount.value >= 0
        && f.description.Some? && Trim(f.description.value) != []
        && |Trim(f.description.value)| <= MaxDescriptionLength
  {
  }
}
