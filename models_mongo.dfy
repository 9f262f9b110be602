/**
 * `models_mongo.py`: the id query builder, datetime coercion, the `Task`
 * document object (normalisation, subtasks, save, serialisation), the
 * per-user query and the status statistics loop.  The database itself is
 * not modelled: `save` receives the next sequence value, and queries are
 * returned as values.
 */
module MongoModels {
  import opened Wrappers
  import opened Text
  import opened Clock

  // ---------- Python int() on a string ----------

  /** Digits with single underscores between them, as `int()` accepts. */
  predicate IsGrouped(b: string) {
    && |b| > 0 && IsDigit(b[0]) && IsDigit(b[|b| - 1])
    && (forall k :: 0 <= k < |b| ==> IsDigit(b[k]) || b[k] == '_')
    && (forall k :: 0 <= k < |b| - 1 ==> b[k] == '_' ==> IsDigit(b[k + 1]))
  }

  function DropUnderscores(b: string): (r: string)
    ensures forall k :: 0 <= k < |r| ==> r[k] != '_'
    ensures (forall k :: 0 <= k < |b| ==> IsDigit(b[k]) || b[k] == '_') ==> AllDigits(r)
    ensures AllDigits(b) ==> r == b
  {
    if b == [] then []
    else (if b[0] == '_' then [] else [b[0]]) + DropUnderscores(b[1..])
  }

  /** The value of a string of decimal digits. */
  function DecValue(s: string): nat
    requires AllDigits(s)
  {
    if s == [] then 0 else DecValue(s[..|s| - 1]) * 10 + DigitValue(s[|s| - 1])
  }

  /** `int(s)` for a string: surrounding whitespace, an optional sign, grouped digits; `None` where it raises. */
  function PyInt(s: string): (r: Option<int>)
    ensures r.Some? ==> Strip(s) != ""
  {
    var t := Strip(s);
    var signed := |t| > 0 && (t[0] == '+' || t[0] == '-');
    var body := if signed then t[1..] else t;
    if IsGrouped(body) then
      var v: int := DecValue(DropUnderscores(body));
      Some(if signed && t[0] == '-' then -v else v)
    else None
  }

  lemma {:induction false} DecValueOfNatToDec(n: nat)
    ensures DecValue(NatToDec(n)) == n
  {
    if n >= 10 {
      var s := NatToDec(n);
      assert s[..|s| - 1] == NatToDec(n / 10);
      DecValueOfNatToDec(n / 10);
    }
  }

  /** `int(str(n)) == n`. */
  lemma PyIntOfDecimal(n: int)
    ensures PyInt(IntToDec(n)) == Some(n)
  {
    var s := IntToDec(n);
    var m: nat := if n < 0 then -n else n;
    var digits := NatToDec(m);
    DecimalIsStripped(n);
    var body := if n < 0 then s[1..] else s;
    assert body == digits;
    DigitsAreGrouped(digits);
    DecValueOfNatToDec(m);
  }

  lemma DecimalIsStripped(n: int)
    ensures Strip(IntToDec(n)) == IntToDec(n)
  {
    var s := IntToDec(n);
    var digits := NatToDec(if n < 0 then -n else n);
    assert s[|s| - 1] == digits[|digits| - 1];
    StripTrimmed(s, IsSpace);
  }

  lemma DigitsAreGrouped(digits: string)
    requires |digits| >= 1 && AllDigits(digits)
    ensures IsGrouped(digits) && DropUnderscores(digits) == digits
  {
  }

  // ---------- _id_query ----------

  predicate IsHex(c: char) {
    IsDigit(c) || 'a' <= c <= 'f' || 'A' <= c <= 'F'
  }

  /** `ObjectId.is_valid` on a string: 24 hexadecimal digits. */
  predicate IsObjectId(s: string) {
    |s| == 24 && forall k :: 0 <= k < |s| ==> IsHex(s[k])
  }

  /** A task or user id as it reaches `_id_query`. */
  datatype IdValue = IntId(n: int) | StrId(s: string)

  /** `str(value)`. */
  function IdText(v: IdValue): string {
    match v
    case IntId(n) => IntToDec(n)
    case StrId(s) => s
  }

  /** `int(value)`, `None` where it raises. */
  function IdInt(v: IdValue): Option<int> {
    match v
    case IntId(n) => Some(n)
    case StrId(s) => PyInt(s)
  }

  /** One `$or` alternative; an ObjectId is kept as its lower-case hex, which identifies it. */
  datatype Alternative = ById(id: int) | ByObjectId(hex: string)

  datatype IdFilter = AnyOf(alts: seq<Alternative>) | NoMatch

  /** `_id_query`: an `id` alternative when the value is an int, an `_id` one when it is an ObjectId. */
  method IdQuery(value: IdValue) returns (q: IdFilter)
    ensures q.NoMatch? <==> IdInt(value).None? && !IsObjectId(IdText(value))
    ensures IdInt(value).Some? ==> q.AnyOf? && |q.alts| >= 1 && q.alts[0] == ById(IdInt(value).value)
    ensures IsObjectId(IdText(value)) ==> q.AnyOf? && |q.alts| >= 1 && q.alts[|q.alts| - 1] == ByObjectId(Lower(IdText(value)))
    ensures q.AnyOf? ==> 1 <= |q.alts| <= 2
    ensures q.AnyOf? ==> (|q.alts| == 2 <==> IdInt(value).Some? && IsObjectId(IdText(value)))
    ensures q.AnyOf? && |q.alts| == 2 ==> q.alts[0].ById? && q.alts[1].ByObjectId?
    ensures q.AnyOf? ==> forall i :: 0 <= i < |q.alts| ==>
      (q.alts[i].ById? ==> IdInt(value) == Some(q.alts[i].id))
      && (q.alts[i].ByObjectId? ==> IsObjectId(IdText(value)) && q.alts[i].hex == Lower(IdText(value)))
  {
    var ors: seq<Alternative> := [];
    var asInt := IdInt(value);
    var text := IdText(value);
    if asInt.Some? {
      ors := ors + [ById(asInt.value)];
    }
    assert ors == if asInt.Some? then [ById(asInt.value)] else [];
    if IsObjectId(text) {
      ors := ors + [ByObjectId(Lower(text))];
    }
    if ors != [] {
      q := AnyOf(ors);
    } else {
      q := NoMatch;
    }
  }

  // ---------- _parse_dt ----------

  /** What `isoparse` reads: the wall-clock time and the UTC offset in minutes, if any. */
  datatype Parsed = Parsed(wall: Instant, offset: Option<int>)

  /** A value handed to `_parse_dt`. */
  datatype RawDt = DtValue(dt: Instant) | DtText(text: string) | DtNone

  /**
   * `_parse_dt`: a datetime is returned as is; anything else is printed and
   * parsed by `isoparse`, keeping the wall-clock fields and dropping the offset.
   * `str(None)` is "None", which `isoparse` rejects.
   */
  function ParseDt(raw: RawDt, isoparse: string -> Option<Parsed>): (r: Option<Instant>)
    ensures raw.DtValue? ==> r == Some(raw.dt)
    ensures raw.DtNone? ==> r.None?
    ensures raw.DtText? ==> (r.Some? <==> isoparse(raw.text).Some?)
    ensures raw.DtText? && r.Some? ==> r.value == isoparse(raw.text).value.wall
  {
    match raw
    case DtValue(dt) => Some(dt)
    case DtNone => None
    case DtText(text) =>
      var p := isoparse(text);
      if p.Some? then Some(p.value.wall) else None
  }

  /** `isoparse` on the shape `isoformat()` produces. */
  function IsoParse(s: string): Option<Parsed> {
    var p := ParseIso(s);
    if p.Some? && Valid(p.value) then Some(Parsed(p.value, None)) else None
  }

  /** A deadline written by `to_dict` is read back unchanged by `_parse_dt`. */
  lemma ParseDtReadsIsoFormat(dt: Instant)
    ensures ParseDt(DtText(IsoFormat(dt)), IsoParse) == Some(dt)
  {
    IsoRoundTrip(dt);
  }

  // ---------- set_subtasks ----------

  /** An element of the list handed to `set_subtasks`; only strings survive. */
  datatype Item = Text(s: string) | NonText

  /** The argument of `set_subtasks`: a list, a string (iterated character by character) or a falsy value. */
  datatype SubtaskArg = ListArg(items: seq<Item>) | TextArg(text: string) | FalsyArg

  function ArgItems(arg: SubtaskArg): seq<Item> {
    match arg
    case ListArg(items) => items
    case TextArg(text) => seq(|text|, i requires 0 <= i < |text| => Text([text[i]]))
    case FalsyArg => []
  }

  /** Keep the strings that are not blank, stripped, in order. */
  function CleanSubtasks(items: seq<Item>): (r: seq<string>)
    ensures |r| <= |items|
    ensures forall i :: 0 <= i < |r| ==> r[i] != "" && Trimmed(r[i], IsSpace)
  {
    if items == [] then []
    else
      var rest := CleanSubtasks(items[1..]);
      if items[0].Text? && Strip(items[0].s) != "" then [Strip(items[0].s)] + rest else rest
  }

  function AsItems(subtasks: seq<string>): seq<Item> {
    seq(|subtasks|, i requires 0 <= i < |subtasks| => Text(subtasks[i]))
  }

  /** Cleaning a cleaned list changes nothing. */
  lemma {:induction false} CleanSubtasksIdempotent(items: seq<Item>)
    ensures CleanSubtasks(AsItems(CleanSubtasks(items))) == CleanSubtasks(items)
  {
    KeepsClean(CleanSubtasks(items));
  }

  lemma {:induction false} KeepsClean(subtasks: seq<string>)
    requires forall i :: 0 <= i < |subtasks| ==> subtasks[i] != "" && Trimmed(subtasks[i], IsSpace)
    ensures CleanSubtasks(AsItems(subtasks)) == subtasks
  {
    if subtasks != [] {
      StripTrimmed(subtasks[0], IsSpace);
      assert AsItems(subtasks)[1..] == AsItems(subtasks[1..]);
      KeepsClean(subtasks[1..]);
    }
  }

  /** A single entry is kept, stripped, exactly when it is a string that is not blank. */
  lemma {:induction false} CleanSubtasksSingle(item: Item)
    ensures CleanSubtasks([item]) == if item.Text? && Strip(item.s) != "" then [Strip(item.s)] else []
  {
  }

  lemma {:induction false} CleanSubtasksCons(items: seq<Item>)
    requires items != []
    ensures CleanSubtasks(items) == CleanSubtasks([items[0]]) + CleanSubtasks(items[1..])
  {
    assert [items[0]][1..] == [];
  }

  /** Cleaning distributes over concatenation, so the kept entries stay in their original order. */
  lemma {:induction false} CleanSubtasksConcat(a: seq<Item>, b: seq<Item>)
    ensures CleanSubtasks(a + b) == CleanSubtasks(a) + CleanSubtasks(b)
  {
    if a != [] {
      assert (a + b)[0] == a[0] && (a + b)[1..] == a[1..] + b;
      CleanSubtasksCons(a + b);
      CleanSubtasksCons(a);
      CleanSubtasksConcat(a[1..], b);
      var h, t, u := CleanSubtasks([a[0]]), CleanSubtasks(a[1..]), CleanSubtasks(b);
      assert h + (t + u) == (h + t) + u;
    } else {
      assert a + b == b;
    }
  }

  /** Entry `i` of the input is a string that strips to the non-blank `x`. */
  predicate Supplies(items: seq<Item>, i: int, x: string) {
    0 <= i < |items| && items[i].Text? && Strip(items[i].s) == x && x != ""
  }

  /** Each kept entry is a stripped input string, and every such string is kept. */
  lemma {:induction false} CleanSubtasksFromInput(items: seq<Item>, x: string)
    ensures x in CleanSubtasks(items) <==> exists i :: Supplies(items, i, x)
  {
    if items != [] {
      var tail := items[1..];
      CleanSubtasksFromInput(tail, x);
      var head := items[0].Text? && Strip(items[0].s) != "";
      assert CleanSubtasks(items) == (if head then [Strip(items[0].s)] else []) + CleanSubtasks(tail);
      if x in CleanSubtasks(tail) {
        var i :| Supplies(tail, i, x);
        assert items[i + 1] == tail[i];
        assert Supplies(items, i + 1, x);
      }
      if exists i :: Supplies(items, i, x) {
        var i :| Supplies(items, i, x);
        if i > 0 {
          assert tail[i - 1] == items[i];
          assert Supplies(tail, i - 1, x);
        } else {
          assert head && CleanSubtasks(items)[0] == x;
        }
      }
      if head && x == Strip(items[0].s) {
        assert Supplies(items, 0, x);
      }
    }
  }

  // ---------- find_by_user_id ----------

  /** One condition of a task query. */
  datatype Condition =
    | EqualsInt(n: int)
    | Equals(value: string)
    | AnyFieldMatches(fields: seq<string>, pattern: string, caseInsensitive: bool)

  /** `find_by_user_id`'s query: the owner, then each filter that is present and non-empty. */
  function UserTaskQuery(uid: int, filters: map<string, string>): (q: map<string, Condition>)
    ensures "user_id" in q && q["user_id"] == EqualsInt(uid)
    ensures forall key :: key in {"status", "priority", "category"} ==>
      (key in q <==> key in filters && filters[key] != "")
      && (key in q ==> q[key] == Equals(filters[key]))
    ensures "$or" in q <==> "search" in filters && filters["search"] != ""
    ensures "$or" in q ==> q["$or"] == AnyFieldMatches(["title", "description"], filters["search"], true)
    ensures q.Keys <= {"user_id", "status", "priority", "category", "$or"}
  {
    var q := map["user_id" := EqualsInt(uid)];
    var q := if "status" in filters && filters["status"] != "" then q["status" := Equals(filters["status"])] else q;
    var q := if "priority" in filters && filters["priority"] != "" then q["priority" := Equals(filters["priority"])] else q;
    var q := if "category" in filters && filters["category"] != "" then q["category" := Equals(filters["category"])] else q;
    if "search" in filters && filters["search"] != "" then
      q["$or" := AnyFieldMatches(["title", "description"], filters["search"], true)]
    else q
  }

  /** Without usable filters the query is the owner alone. */
  lemma UserTaskQueryUnfiltered(uid: int, filters: map<string, string>)
    requires forall key :: key in filters ==> filters[key] == ""
    ensures UserTaskQuery(uid, filters) == map["user_id" := EqualsInt(uid)]
  {
  }

  // ---------- get_user_stats ----------

  /** One row of the `$group` stage: a status (possibly null) and its task count. */
  datatype Group = Group(status: Option<string>, count: nat)

  datatype Stats = Stats(total: nat, pending: nat, inProgress: nat, completed: nat)

  function Sum(rows: seq<Group>): nat {
    if rows == [] then 0 else Sum(rows[..|rows| - 1]) + rows[|rows| - 1].count
  }

  /** The count of the last row for `status`, 0 when there is none. */
  function LastCount(rows: seq<Group>, status: string): nat {
    if rows == [] then 0
    else if rows[|rows| - 1].status == Some(status) then rows[|rows| - 1].count
    else LastCount(rows[..|rows| - 1], status)
  }

  /** `get_user_stats` without `completion_rate`. */
  method GetUserStats(rows: seq<Group>) returns (s: Stats)
    ensures s.total == Sum(rows)
    ensures s.pending == LastCount(rows, "pending")
    ensures s.inProgress == LastCount(rows, "in_progress")
    ensures s.completed == LastCount(rows, "completed")
  {
    s := Stats(0, 0, 0, 0);
    var i := 0;
    while i < |rows|
      invariant 0 <= i <= |rows|
      invariant s.total == Sum(rows[..i])
      invariant s.pending == LastCount(rows[..i], "pending")
      invariant s.inProgress == LastCount(rows[..i], "in_progress")
      invariant s.completed == LastCount(rows[..i], "completed")
    {
      var row := rows[i];
      assert rows[..i + 1][..i] == rows[..i];
      s := s.(total := s.total + row.count);
      if row.status == Some("pending") {
        s := s.(pending := row.count);
      } else if row.status == Some("in_progress") {
        s := s.(inProgress := row.count);
      } else if row.status == Some("completed") {
        s := s.(completed := row.count);
      }
      i := i + 1;
    }
    assert rows[..i] == rows;
  }

  /** Grouping yields each status at most once. */
  predicate DistinctStatuses(rows: seq<Group>) {
    forall i, j :: 0 <= i < j < |rows| ==> rows[i].status != rows[j].status
  }

  lemma {:induction false} LastCountAbsent(rows: seq<Group>, status: string)
    requires forall i :: 0 <= i < |rows| ==> rows[i].status != Some(status)
    ensures LastCount(rows, status) == 0
  {
    if rows != [] {
      LastCountAbsent(rows[..|rows| - 1], status);
    }
  }

  /** With one row per status, the three named counts never exceed the total. */
  lemma {:induction false} NamedCountsBounded(rows: seq<Group>, a: string, b: string, c: string)
    requires DistinctStatuses(rows) && a != b && b != c && a != c
    ensures LastCount(rows, a) + LastCount(rows, b) + LastCount(rows, c) <= Sum(rows)
  {
    if rows != [] {
      var init := rows[..|rows| - 1];
      var last := rows[|rows| - 1];
      NamedCountsBounded(init, a, b, c);
      forall x | last.status == Some(x) ensures LastCount(init, x) == 0 {
        LastCountAbsent(init, x);
      }
    }
  }

  /** The statistics of a user's groups: the three tracked counts never exceed the total. */
  lemma StatsBounded(rows: seq<Group>)
    requires DistinctStatuses(rows)
    ensures LastCount(rows, "pending") + LastCount(rows, "in_progress") + LastCount(rows, "completed") <= Sum(rows)
  {
    NamedCountsBounded(rows, "pending", "in_progress", "completed");
  }

  // ---------- Task ----------

  /** `Task.to_dict()`. */
  datatype TaskDict = TaskDict(
    id: Option<int>, title: Option<string>, description: Option<string>, deadline: Option<string>,
    priority: string, category: string, status: string, subtasks: seq<string>, aiGenerated: bool,
    createdAt: string, updatedAt: string, userId: int)

  /** What `save` did with the document. */
  datatype SaveOp = Updated(filter: IdFilter) | Inserted(id: int)

  class Task {
    var id: Option<int>
    var title: Option<string>
    var description: Option<string>
    var deadline: Option<Instant>
    var priority: string
    var category: string
    var status: string
    var userId: int
    var aiGenerated: bool
    var subtasks: seq<string>
    var createdAt: Instant
    var updatedAt: Instant

    /**
     * `Task.__init__`: falsy title and description become `None`; priority,
     * category and status fall back to medium/general/pending and are
     * lower-cased; missing timestamps take `now`.
     */
    constructor (id: Option<int>, title: Option<string>, description: Option<string>, deadline: RawDt,
                 priority: Option<string>, category: Option<string>, status: Option<string>,
                 userId: int, aiGenerated: Option<bool>, subtasks: seq<string>,
                 createdAt: RawDt, updatedAt: RawDt, isoparse: string -> Option<Parsed>, now: Instant)
      ensures this.id == id
      ensures this.title == (if Truthy(title) then title else None)
      ensures this.description == (if Truthy(description) then description else None)
      ensures this.deadline == ParseDt(deadline, isoparse)
      ensures this.priority == Lower(OrElse(priority, "medium"))
      ensures this.category == Lower(OrElse(category, "general"))
      ensures this.status == Lower(OrElse(status, "pending"))
      ensures IsLower(this.priority) && IsLower(this.category) && IsLower(this.status)
      ensures this.userId == userId
      ensures this.aiGenerated == aiGenerated.GetOr(false)
      ensures this.subtasks == subtasks
      ensures this.createdAt == ParseDt(createdAt, isoparse).GetOr(now)
      ensures this.updatedAt == ParseDt(updatedAt, isoparse).GetOr(now)
    {
      this.id := id;
      this.title := if Truthy(title) then title else None;
      this.description := if Truthy(description) then description else None;
      this.deadline := ParseDt(deadline, isoparse);
      this.priority := Lower(OrElse(priority, "medium"));
      this.category := Lower(OrElse(category, "general"));
      this.status := Lower(OrElse(status, "pending"));
      this.userId := userId;
      this.aiGenerated := aiGenerated.GetOr(false);
      this.subtasks := subtasks;
      this.createdAt := ParseDt(createdAt, isoparse).GetOr(now);
      this.updatedAt := ParseDt(updatedAt, isoparse).GetOr(now);
      LowerIsLower(OrElse(priority, "medium"));
      LowerIsLower(OrElse(category, "general"));
      LowerIsLower(OrElse(status, "pending"));
    }

    /** The fields the text updates of `update_task` never write. */
    function Untouched(): (Option<int>, Option<Instant>, int, seq<string>, bool, Instant, Instant)
      reads this
    {
      (id, deadline, userId, subtasks, aiGenerated, createdAt, updatedAt)
    }

    /** `set_subtasks`. */
    method SetSubtasks(arg: SubtaskArg)
      modifies this
      ensures subtasks == CleanSubtasks(ArgItems(arg))
      ensures forall i :: 0 <= i < |subtasks| ==> subtasks[i] != "" && Trimmed(subtasks[i], IsSpace)
      ensures id == old(id) && title == old(title) && description == old(description) && deadline == old(deadline)
      ensures priority == old(priority) && category == old(category) && status == old(status)
      ensures userId == old(userId) && aiGenerated == old(aiGenerated)
      ensures createdAt == old(createdAt) && updatedAt == old(updatedAt)
    {
      subtasks := CleanSubtasks(ArgItems(arg));
    }

    /** `save`: a falsy id takes the next sequence value and inserts; otherwise the document is updated by id. */
    method Save(nextId: int) returns (op: SaveOp)
      modifies this
      ensures old(id).Some? && old(id).value != 0 ==> id == old(id) && op.Updated?
      ensures old(id).Some? && old(id).value != 0 ==> op.filter.AnyOf? && |op.filter.alts| >= 1 && op.filter.alts[0] == ById(old(id).value)
      ensures old(id).None? || old(id).value == 0 ==> id == Some(nextId) && op == Inserted(nextId)
      ensures title == old(title) && description == old(description) && deadline == old(deadline)
      ensures priority == old(priority) && category == old(category) && status == old(status)
      ensures userId == old(userId) && aiGenerated == old(aiGenerated) && subtasks == old(subtasks)
      ensures createdAt == old(createdAt) && updatedAt == old(updatedAt)
    {
      if id.Some? && id.value != 0 {
        var filter := IdQuery(IntId(id.value));
        op := Updated(filter);
      } else {
        id := Some(nextId);
        op := Inserted(nextId);
      }
    }

    /** `to_dict`: the deadline as its ISO text, or `None`. */
    function ToDict(): (d: TaskDict)
      reads this
      ensures d.deadline.None? <==> deadline.None?
      ensures deadline.Some? ==> ParseIso(d.deadline.value) == Some(deadline.value)
      ensures ParseIso(d.createdAt) == Some(createdAt) && ParseIso(d.updatedAt) == Some(updatedAt)
      ensures d.id == id && d.status == status && d.subtasks == subtasks && d.userId == userId
    {
      var text := if deadline.Some? then Some(IsoFormat(deadline.value)) else None;
      assert deadline.Some? ==> ParseIso(text.value) == Some(deadline.value) by {
        if deadline.Some? {
          IsoRoundTrip(deadline.value);
        }
      }
      IsoRoundTrip(createdAt);
      IsoRoundTrip(updatedAt);
      TaskDict(id, title, description, text,
               priority, category, status, subtasks, aiGenerated,
               IsoFormat(createdAt), IsoFormat(updatedAt), userId)
    }
  }
}
