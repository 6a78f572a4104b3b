/**
 * The mobile report endpoints: creating a report, the paginated feed (which counts
 * a view for every report it returns), and the support and verify toggles. The
 * database is a `ReportDatabase` object holding the report rows, the interaction
 * table and each user's reported-count; every request either commits all its
 * changes or, when it raises, none (the session is closed without a commit, which
 * rolls it back). Authentication is left out: the caller's user id is a parameter.
 */
module MobileAuth {
  import opened Wrappers

  datatype ReportStatus = Pending | Verified | Todo | InProgress | Resolved

  datatype IssueCategory = Pothole | Trash

  datatype InteractionType = Support | Verify

  /** A row of the reports table; `id` is the row number counted from 1. */
  datatype Report = Report(
    id: nat,
    userId: nat,
    title: string,
    description: string,
    category: IssueCategory,
    locationAddress: string,
    locationCity: Option<string>,
    locationLat: Option<real>,
    locationLng: Option<real>,
    imageUrl: Option<string>,
    status: ReportStatus,
    supportCount: nat,
    verifyCount: nat,
    views: nat)

  /** A row of the interaction table; the endpoints never store the same triple twice. */
  datatype Interaction = Interaction(reportId: nat, userId: nat, kind: InteractionType)

  /** The database: reports in insertion order, the interactions, and `total_reported` per user with a profile. */
  datatype Db = Db(reports: seq<Report>, interactions: set<Interaction>, profiles: map<nat, nat>)

  /** The new database and the endpoint's answer. */
  datatype Step<R> = Step(db: Db, response: R)

  // ---------------------------------------------------------------------------
  // Categories
  // ---------------------------------------------------------------------------

  /** The enumeration's value, `category.value`. */
  function CategoryName(c: IssueCategory): string
  {
    match c
    case Pothole => "POTHOLE"
    case Trash => "TRASH"
  }

  /** `IssueCategory(s)`: the member whose value is `s`, or None where the lookup raises ValueError. */
  function ParseCategory(s: string): (r: Option<IssueCategory>)
    ensures r.Some? <==> s == "POTHOLE" || s == "TRASH"
    ensures r.Some? ==> CategoryName(r.value) == s
  {
    if s == "POTHOLE" then Some(Pothole)
    else if s == "TRASH" then Some(Trash)
    else None
  }

  /** Parsing is the inverse of the enumeration's value. */
  lemma ParseCategoryInvertsName(c: IssueCategory)
    ensures ParseCategory(CategoryName(c)) == Some(c)
  {
  }

  /**
   * `str.upper` on one character, for the characters that can take part in a
   * category name: ASCII lower-case letters, and the long s (U+017F), whose upper
   * case is "S". Every other character is left as it is; none of them has an
   * upper case made only of the letters of POTHOLE or TRASH.
   */
  function UpperChar(c: char): (u: char)
    ensures 'a' <= c <= 'z' ==> u as int == c as int - 32
    ensures !('a' <= c <= 'z') && c as int != 0x17F ==> u == c
    ensures !('a' <= u <= 'z')
  {
    if 'a' <= c <= 'z' then (c as int - 32) as char
    else if c as int == 0x17F then 'S'
    else c
  }

  function Upper(s: string): (u: string)
    ensures |u| == |s|
    ensures forall i :: 0 <= i < |s| ==> u[i] == UpperChar(s[i])
  {
    if s == [] then [] else [UpperChar(s[0])] + Upper(s[1..])
  }

  /** Upper-casing twice changes nothing more, so the category check ignores case. */
  lemma UpperIdempotent(s: string)
    ensures Upper(Upper(s)) == Upper(s)
  {
    assert forall i :: 0 <= i < |s| ==> UpperChar(UpperChar(s[i])) == UpperChar(s[i]);
  }

  /** A category is accepted in any mix of cases. */
  lemma CategoryIgnoresCase(s: string, c: IssueCategory)
    requires Upper(s) == CategoryName(c)
    ensures ParseCategory(Upper(s)) == Some(c)
    ensures ParseCategory(Upper(Upper(s))) == Some(c)
  {
    UpperIdempotent(s);
  }

  // ---------------------------------------------------------------------------
  // str.strip
  // ---------------------------------------------------------------------------

  /** `str.isspace` for one character: the Unicode white space and the ASCII separators 0x1C-0x1F. */
  predicate IsSpace(c: char)
  {
    var n := c as int;
    (9 <= n <= 13) || (28 <= n <= 32) || n == 0x85 || n == 0xA0 || n == 0x1680 ||
    (0x2000 <= n <= 0x200A) || n == 0x2028 || n == 0x2029 || n == 0x202F || n == 0x205F || n == 0x3000
  }

  /** The number of white-space characters `s` starts with. */
  function LeadingSpaces(s: string): (n: nat)
    ensures n <= |s|
    ensures forall k :: 0 <= k < n ==> IsSpace(s[k])
    ensures n == |s| || !IsSpace(s[n])
  {
    if s != [] && IsSpace(s[0]) then 1 + LeadingSpaces(s[1..]) else 0
  }

  function StripTrailing(s: string): (r: string)
    ensures |r| <= |s| && r == s[..|r|]
    ensures forall k :: |r| <= k < |s| ==> IsSpace(s[k])
    ensures r == [] || !IsSpace(r[|r| - 1])
  {
    if s != [] && IsSpace(s[|s| - 1]) then StripTrailing(s[..|s| - 1]) else s
  }

  /** `str.strip()`: the text between the leading and the trailing white space. */
  function Strip(s: string): (r: string)
    ensures LeadingSpaces(s) + |r| <= |s|
    ensures r == s[LeadingSpaces(s)..LeadingSpaces(s) + |r|]
    ensures forall k :: LeadingSpaces(s) + |r| <= k < |s| ==> IsSpace(s[k])
    ensures r == [] || (!IsSpace(r[0]) && !IsSpace(r[|r| - 1]))
  {
    var a := LeadingSpaces(s);
    var r := StripTrailing(s[a..]);
    assert r != [] ==> r[0] == s[a];
    r
  }

  // ---------------------------------------------------------------------------
  // The database invariant
  // ---------------------------------------------------------------------------

  /** The interactions of one kind recorded for one report. */
  function Holders(interactions: set<Interaction>, reportId: nat, kind: InteractionType): set<Interaction>
  {
    set x | x in interactions && x.reportId == reportId && x.kind == kind
  }

  function Count(interactions: set<Interaction>, reportId: nat, kind: InteractionType): nat
  {
    |Holders(interactions, reportId, kind)|
  }

  /**
   * What the endpoints keep true: ids are row numbers, every interaction names an
   * existing report, and each report's two counters equal its number of support
   * and verify interactions.
   */
  predicate Consistent(db: Db)
  {
    (forall i :: 0 <= i < |db.reports| ==> db.reports[i].id == i + 1) &&
    (forall x :: x in db.interactions ==> 1 <= x.reportId <= |db.reports|) &&
    (forall i :: 0 <= i < |db.reports| ==>
      db.reports[i].supportCount == Count(db.interactions, i + 1, Support) &&
      db.reports[i].verifyCount == Count(db.interactions, i + 1, Verify))
  }

  /** The starting database: no reports, no interactions. */
  lemma EmptyIsConsistent(profiles: map<nat, nat>)
    ensures Consistent(Db([], {}, profiles))
  {
  }

  /** `filter(Report.id == report_id).first()`: the first row with that id. */
  function IndexOf(reports: seq<Report>, id: nat, from: nat): (r: Option<nat>)
    requires from <= |reports|
    ensures r.None? <==> forall i :: from <= i < |reports| ==> reports[i].id != id
    ensures r.Some? ==> from <= r.value < |reports| && reports[r.value].id == id
    decreases |reports| - from
  {
    if from == |reports| then None
    else if reports[from].id == id then Some(from)
    else IndexOf(reports, id, from + 1)
  }

  function Find(reports: seq<Report>, id: nat): (r: Option<nat>)
    ensures r.None? <==> forall i :: 0 <= i < |reports| ==> reports[i].id != id
    ensures r.Some? ==> r.value < |reports| && reports[r.value].id == id
  {
    IndexOf(reports, id, 0)
  }

  /** In a consistent database a report id is found exactly when it is a row number. */
  lemma FindRowNumber(db: Db, id: nat)
    requires Consistent(db)
    ensures Find(db.reports, id) == if 1 <= id <= |db.reports| then Some(id - 1) else None
  {
    if 1 <= id <= |db.reports| {
      assert db.reports[id - 1].id == id;
    }
  }

  /** The lookup reads only the ids: replacing a row by one with the same id finds the same row. */
  lemma {:induction false} FindIgnoresOtherFields(reports: seq<Report>, i: nat, r': Report, id: nat, from: nat)
    requires i < |reports| && r'.id == reports[i].id && from <= |reports|
    ensures IndexOf(reports[i := r'], id, from) == IndexOf(reports, id, from)
    decreases |reports| - from
  {
    if from < |reports| {
      FindIgnoresOtherFields(reports, i, r', id, from + 1);
    }
  }

  /** Adding one interaction changes only the set it belongs to, by exactly that interaction. */
  lemma HoldersAdd(interactions: set<Interaction>, e: Interaction, reportId: nat, kind: InteractionType)
    ensures Holders(interactions + {e}, reportId, kind) ==
      if e.reportId == reportId && e.kind == kind then Holders(interactions, reportId, kind) + {e}
      else Holders(interactions, reportId, kind)
  {
  }

  lemma HoldersRemove(interactions: set<Interaction>, e: Interaction, reportId: nat, kind: InteractionType)
    ensures Holders(interactions - {e}, reportId, kind) ==
      if e.reportId == reportId && e.kind == kind then Holders(interactions, reportId, kind) - {e}
      else Holders(interactions, reportId, kind)
  {
  }

  /**
   * Recording a new interaction `e` for row `i` and replacing the row by `r'`, whose
   * counter of `e`'s kind is one higher and which is otherwise unchanged in id and
   * the other counter, keeps the database consistent.
   */
  lemma AddKeepsConsistency(db: Db, i: nat, e: Interaction, r': Report)
    requires Consistent(db) && i < |db.reports| && e.reportId == i + 1 && e !in db.interactions
    requires r'.id == db.reports[i].id
    requires e.kind == Support ==> r'.supportCount == db.reports[i].supportCount + 1 && r'.verifyCount == db.reports[i].verifyCount
    requires e.kind == Verify ==> r'.verifyCount == db.reports[i].verifyCount + 1 && r'.supportCount == db.reports[i].supportCount
    ensures Consistent(db.(interactions := db.interactions + {e}, reports := db.reports[i := r']))
    ensures e.kind == Support ==> Count(db.interactions + {e}, i + 1, Support) == r'.supportCount
    ensures e.kind == Verify ==> Count(db.interactions + {e}, i + 1, Verify) == r'.verifyCount
  {
    var db' := db.(interactions := db.interactions + {e}, reports := db.reports[i := r']);
    forall j | 0 <= j < |db'.reports|
      ensures db'.reports[j].id == j + 1
      ensures db'.reports[j].supportCount == Count(db'.interactions, j + 1, Support)
      ensures db'.reports[j].verifyCount == Count(db'.interactions, j + 1, Verify)
    {
      HoldersAdd(db.interactions, e, j + 1, Support);
      HoldersAdd(db.interactions, e, j + 1, Verify);
      if j == i {
        assert e !in Holders(db.interactions, j + 1, e.kind);
      }
    }
    assert db'.reports[i] == r';
  }

  /** Deleting a recorded interaction `e` of row `i` with the matching counter one lower keeps the database consistent. */
  lemma RemoveKeepsConsistency(db: Db, i: nat, e: Interaction, r': Report)
    requires Consistent(db) && i < |db.reports| && e.reportId == i + 1 && e in db.interactions
    requires r'.id == db.reports[i].id
    requires e.kind == Support ==> r'.supportCount + 1 == db.reports[i].supportCount && r'.verifyCount == db.reports[i].verifyCount
    requires e.kind == Verify ==> r'.verifyCount + 1 == db.reports[i].verifyCount && r'.supportCount == db.reports[i].supportCount
    ensures Consistent(db.(interactions := db.interactions - {e}, reports := db.reports[i := r']))
    ensures e.kind == Support ==> Count(db.interactions - {e}, i + 1, Support) == r'.supportCount
    ensures e.kind == Verify ==> Count(db.interactions - {e}, i + 1, Verify) == r'.verifyCount
  {
    var db' := db.(interactions := db.interactions - {e}, reports := db.reports[i := r']);
    forall j | 0 <= j < |db'.reports|
      ensures db'.reports[j].id == j + 1
      ensures db'.reports[j].supportCount == Count(db'.interactions, j + 1, Support)
      ensures db'.reports[j].verifyCount == Count(db'.interactions, j + 1, Verify)
    {
      HoldersRemove(db.interactions, e, j + 1, Support);
      HoldersRemove(db.interactions, e, j + 1, Verify);
      if j == i {
        assert e in Holders(db.interactions, j + 1, e.kind);
      }
    }
    assert db'.reports[i] == r';
  }

  /** A recorded interaction is counted, so its report's counter of that kind is positive. */
  lemma RecordedIsCounted(db: Db, e: Interaction)
    requires Consistent(db) && e in db.interactions
    ensures e.kind == Support ==> db.reports[e.reportId - 1].supportCount > 0
    ensures e.kind == Verify ==> db.reports[e.reportId - 1].verifyCount > 0
  {
    assert e in Holders(db.interactions, e.reportId, e.kind);
  }

  /** `max(0, n - 1)`. */
  function Decrement(n: nat): (r: nat)
    ensures n > 0 ==> r + 1 == n
    ensures n == 0 ==> r == 0
  {
    if n - 1 < 0 then 0 else n - 1
  }

  // ---------------------------------------------------------------------------
  // toggle_support and toggle_verify
  // ---------------------------------------------------------------------------

  /** A toggle's answer: 404, the new flag and counter, or 500 (the request raised). */
  datatype ToggleResponse = NotFound | Toggled(active: bool, count: nat) | InternalError

  /**
   * `toggle_support`: an existing support by this user is deleted and the counter
   * goes down (never below 0); otherwise a support is added and the counter goes up.
   */
  function SupportStep(db: Db, reportId: nat, userId: nat): (s: Step<ToggleResponse>)
    ensures s.response.NotFound? <==> Find(db.reports, reportId).None?
    ensures s.response.NotFound? ==> s.db == db
    ensures Find(db.reports, reportId).Some? ==>
      var i := Find(db.reports, reportId).value;
      var e := Interaction(reportId, userId, Support);
      var n := db.reports[i].supportCount;
      s.response.Toggled? && (s.response.active <==> e !in db.interactions) &&
      (e in db.interactions ==> s.db.interactions == db.interactions - {e} && s.response.count == Decrement(n)) &&
      (e !in db.interactions ==> s.db.interactions == db.interactions + {e} && s.response.count == n + 1) &&
      s.db.reports == db.reports[i := db.reports[i].(supportCount := s.response.count)] &&
      s.db.profiles == db.profiles
  {
    match Find(db.reports, reportId)
    case None => Step(db, NotFound)
    case Some(i) =>
      var r := db.reports[i];
      var e := Interaction(reportId, userId, Support);
      if e in db.interactions then
        var c := Decrement(r.supportCount);
        Step(db.(interactions := db.interactions - {e}, reports := db.reports[i := r.(supportCount := c)]), Toggled(false, c))
      else
        var c := r.supportCount + 1;
        Step(db.(interactions := db.interactions + {e}, reports := db.reports[i := r.(supportCount := c)]), Toggled(true, c))
  }

  /**
   * `toggle_verify` as written: like the support toggle, but an add that brings the
   * counter to 5 or more then evaluates `ReportStatus.REPORTED`, which the
   * enumeration does not define; the AttributeError becomes a 500 and the
   * uncommitted add and increment are rolled back.
   */
  function VerifyStepAsWritten(db: Db, reportId: nat, userId: nat): (s: Step<ToggleResponse>)
    ensures s.response.NotFound? <==> Find(db.reports, reportId).None?
    ensures s.response.NotFound? || s.response.InternalError? ==> s.db == db
    ensures s.response.InternalError? <==>
      Find(db.reports, reportId).Some? && Interaction(reportId, userId, Verify) !in db.interactions &&
      db.reports[Find(db.reports, reportId).value].verifyCount + 1 >= 5
    ensures !s.response.InternalError? ==> s == VerifyStep(db, reportId, userId)
  {
    match Find(db.reports, reportId)
    case None => Step(db, NotFound)
    case Some(i) =>
      var r := db.reports[i];
      var e := Interaction(reportId, userId, Verify);
      if e in db.interactions then
        var c := Decrement(r.verifyCount);
        Step(db.(interactions := db.interactions - {e}, reports := db.reports[i := r.(verifyCount := c)]), Toggled(false, c))
      else
        var c := r.verifyCount + 1;
        if c >= 5 then Step(db, InternalError)
        else Step(db.(interactions := db.interactions + {e}, reports := db.reports[i := r.(verifyCount := c)]), Toggled(true, c))
  }

  /**
   * `toggle_verify` as its documentation describes it: at five verifications a
   * report that is still in its initial status, PENDING, becomes VERIFIED.
   */
  function VerifyStep(db: Db, reportId: nat, userId: nat): (s: Step<ToggleResponse>)
    ensures s.response.NotFound? <==> Find(db.reports, reportId).None?
    ensures s.response.NotFound? ==> s.db == db
    ensures !s.response.InternalError?
    ensures Find(db.reports, reportId).Some? ==>
      var i := Find(db.reports, reportId).value;
      var r := db.reports[i];
      var e := Interaction(reportId, userId, Verify);
      s.response.Toggled? && (s.response.active <==> e !in db.interactions) &&
      (e in db.interactions ==>
        s.db.interactions == db.interactions - {e} && s.response.count == Decrement(r.verifyCount) &&
        s.db.reports == db.reports[i := r.(verifyCount := s.response.count)]) &&
      (e !in db.interactions ==>
        s.db.interactions == db.interactions + {e} && s.response.count == r.verifyCount + 1 &&
        s.db.reports == db.reports[i := r.(verifyCount := s.response.count,
          status := if s.response.count >= 5 && r.status == Pending then Verified else r.status)]) &&
      s.db.profiles == db.profiles
  {
    match Find(db.reports, reportId)
    case None => Step(db, NotFound)
    case Some(i) =>
      var r := db.reports[i];
      var e := Interaction(reportId, userId, Verify);
      if e in db.interactions then
        var c := Decrement(r.verifyCount);
        Step(db.(interactions := db.interactions - {e}, reports := db.reports[i := r.(verifyCount := c)]), Toggled(false, c))
      else
        var c := r.verifyCount + 1;
        var status := if c >= 5 && r.status == Pending then Verified else r.status;
        Step(db.(interactions := db.interactions + {e}, reports := db.reports[i := r.(verifyCount := c, status := status)]), Toggled(true, c))
  }

  /**
   * A support toggle keeps the database consistent and flips the user's support:
   * an existing one is removed and the report's number of supports goes one down,
   * otherwise one is added and the number goes one up. The answer is whether the
   * user now supports the report and that new number.
   */
  lemma SupportKeepsConsistency(db: Db, reportId: nat, userId: nat)
    requires Consistent(db)
    ensures Consistent(SupportStep(db, reportId, userId).db)
    ensures var s := SupportStep(db, reportId, userId);
      s.response.Toggled? ==>
        (s.response.active <==> Interaction(reportId, userId, Support) in s.db.interactions) &&
        s.response.count == Count(s.db.interactions, reportId, Support)
    ensures var s := SupportStep(db, reportId, userId);
      var e := Interaction(reportId, userId, Support);
      var n := Count(db.interactions, reportId, Support);
      s.response.Toggled? ==>
        (s.response.active <==> e !in db.interactions) &&
        (s.response.active ==> s.db.interactions == db.interactions + {e} && s.response.count == n + 1) &&
        (!s.response.active ==> s.db.interactions == db.interactions - {e} && s.response.count + 1 == n)
  {
    FindRowNumber(db, reportId);
    var e := Interaction(reportId, userId, Support);
    if 1 <= reportId <= |db.reports| {
      var i := reportId - 1;
      var r := db.reports[i];
      assert Find(db.reports, reportId) == Some(i);
      if e in db.interactions {
        RecordedIsCounted(db, e);
        RemoveKeepsConsistency(db, i, e, r.(supportCount := r.supportCount - 1));
      } else {
        AddKeepsConsistency(db, i, e, r.(supportCount := r.supportCount + 1));
      }
    }
  }

  /** Verifying (as intended) keeps the database consistent and flips the user's verification in the same way. */
  lemma VerifyKeepsConsistency(db: Db, reportId: nat, userId: nat)
    requires Consistent(db)
    ensures Consistent(VerifyStep(db, reportId, userId).db)
    ensures var s := VerifyStep(db, reportId, userId);
      s.response.Toggled? ==>
        (s.response.active <==> Interaction(reportId, userId, Verify) in s.db.interactions) &&
        s.response.count == Count(s.db.interactions, reportId, Verify)
    ensures var s := VerifyStep(db, reportId, userId);
      var e := Interaction(reportId, userId, Verify);
      var n := Count(db.interactions, reportId, Verify);
      s.response.Toggled? ==>
        (s.response.active <==> e !in db.interactions) &&
        (s.response.active ==> s.db.interactions == db.interactions + {e} && s.response.count == n + 1) &&
        (!s.response.active ==> s.db.interactions == db.interactions - {e} && s.response.count + 1 == n)
  {
    FindRowNumber(db, reportId);
    var e := Interaction(reportId, userId, Verify);
    if 1 <= reportId <= |db.reports| {
      var i := reportId - 1;
      var r := db.reports[i];
      assert Find(db.reports, reportId) == Some(i);
      if e in db.interactions {
        RecordedIsCounted(db, e);
        var r' := r.(verifyCount := r.verifyCount - 1);
        RemoveKeepsConsistency(db, i, e, r');
        assert VerifyStep(db, reportId, userId) ==
          Step(db.(interactions := db.interactions - {e}, reports := db.reports[i := r']), Toggled(false, r'.verifyCount));
      } else {
        var status := if r.verifyCount + 1 >= 5 && r.status == Pending then Verified else r.status;
        var r' := r.(verifyCount := r.verifyCount + 1, status := status);
        AddKeepsConsistency(db, i, e, r');
        assert VerifyStep(db, reportId, userId) ==
          Step(db.(interactions := db.interactions + {e}, reports := db.reports[i := r']), Toggled(true, r'.verifyCount));
      }
    }
  }

  /** "Calling twice removes support": two support toggles by the same user restore the database. */
  lemma SupportTwiceRestores(db: Db, reportId: nat, userId: nat)
    requires Consistent(db)
    ensures SupportStep(SupportStep(db, reportId, userId).db, reportId, userId).db == db
  {
    FindRowNumber(db, reportId);
    var e := Interaction(reportId, userId, Support);
    if 1 <= reportId <= |db.reports| {
      if e in db.interactions {
        RecordedIsCounted(db, e);
      }
      SupportTwiceAt(db, reportId, userId, reportId - 1);
    }
  }

  /** The two support toggles on the row `i` that holds the report. */
  lemma SupportTwiceAt(db: Db, reportId: nat, userId: nat, i: nat)
    requires i < |db.reports| && Find(db.reports, reportId) == Some(i)
    requires Interaction(reportId, userId, Support) in db.interactions ==> db.reports[i].supportCount > 0
    ensures SupportStep(SupportStep(db, reportId, userId).db, reportId, userId).db == db
  {
    var e := Interaction(reportId, userId, Support);
    var r := db.reports[i];
    var db1 := SupportStep(db, reportId, userId).db;
    FindIgnoresOtherFields(db.reports, i, db1.reports[i], reportId, 0);
    if e in db.interactions {
      assert db1 == db.(interactions := db.interactions - {e}, reports := db.reports[i := r.(supportCount := r.supportCount - 1)]);
      assert db1.interactions + {e} == db.interactions;
    } else {
      assert db1 == db.(interactions := db.interactions + {e}, reports := db.reports[i := r.(supportCount := r.supportCount + 1)]);
      assert db1.interactions - {e} == db.interactions;
    }
    assert db1.reports[i := r] == db.reports;
  }

  /** Two verify toggles by the same user restore the interactions and the counter; the status is at most promoted. */
  lemma VerifyTwiceRestores(db: Db, reportId: nat, userId: nat)
    requires Consistent(db)
    ensures var db2 := VerifyStep(VerifyStep(db, reportId, userId).db, reportId, userId).db;
      db2.interactions == db.interactions && |db2.reports| == |db.reports| && db2.profiles == db.profiles &&
      forall j :: 0 <= j < |db.reports| ==>
        db2.reports[j].(status := db.reports[j].status) == db.reports[j] &&
        (db2.reports[j].status == db.reports[j].status ||
         (db.reports[j].status == Pending && db2.reports[j].status == Verified))
  {
    FindRowNumber(db, reportId);
    var e := Interaction(reportId, userId, Verify);
    if 1 <= reportId <= |db.reports| {
      var i := reportId - 1;
      if e in db.interactions {
        RecordedIsCounted(db, e);
      }
      VerifyTwiceAt(db, reportId, userId, i);
      var db2 := VerifyStep(VerifyStep(db, reportId, userId).db, reportId, userId).db;
      StatusOnlyChanged(db.reports, i, db2.reports[i].status);
    }
  }

  /** The two verify toggles on the row `i` that holds the report. */
  lemma VerifyTwiceAt(db: Db, reportId: nat, userId: nat, i: nat)
    requires i < |db.reports| && Find(db.reports, reportId) == Some(i)
    requires Interaction(reportId, userId, Verify) in db.interactions ==> db.reports[i].verifyCount > 0
    ensures var db2 := VerifyStep(VerifyStep(db, reportId, userId).db, reportId, userId).db;
      db2 == db.(reports := db.reports[i := db.reports[i].(status := db2.reports[i].status)]) &&
      (db2.reports[i].status == db.reports[i].status ||
       (db.reports[i].status == Pending && db2.reports[i].status == Verified))
  {
    var e := Interaction(reportId, userId, Verify);
    var r := db.reports[i];
    var db1 := VerifyStep(db, reportId, userId).db;
    FindIgnoresOtherFields(db.reports, i, db1.reports[i], reportId, 0);
    if e in db.interactions {
      var r1 := r.(verifyCount := r.verifyCount - 1);
      assert db1 == db.(interactions := db.interactions - {e}, reports := db.reports[i := r1]);
      assert db1.interactions + {e} == db.interactions;
    } else {
      var status1 := if r.verifyCount + 1 >= 5 && r.status == Pending then Verified else r.status;
      var r1 := r.(verifyCount := r.verifyCount + 1, status := status1);
      assert db1 == db.(interactions := db.interactions + {e}, reports := db.reports[i := r1]);
      assert db1.interactions - {e} == db.interactions;
    }
  }

  /** Setting one row's status to itself or from PENDING to VERIFIED changes nothing else. */
  lemma StatusOnlyChanged(reports: seq<Report>, i: nat, status: ReportStatus)
    requires i < |reports|
    requires status == reports[i].status || (reports[i].status == Pending && status == Verified)
    ensures var reports' := reports[i := reports[i].(status := status)];
      |reports'| == |reports| &&
      forall j :: 0 <= j < |reports| ==>
        reports'[j].(status := reports[j].status) == reports[j] &&
        (reports'[j].status == reports[j].status || (reports[j].status == Pending && reports'[j].status == Verified))
  {
  }

  /**
   * The two counters are independent: a support toggle touches no verify counter,
   * no status and no view count, a verify toggle no support counter, and neither
   * touches another report, a profile or the other kind of interaction.
   */
  lemma TogglesAreIndependent(db: Db, reportId: nat, userId: nat)
    ensures var d := SupportStep(db, reportId, userId).db;
      |d.reports| == |db.reports| && d.profiles == db.profiles &&
      Holders(d.interactions, reportId, Verify) == Holders(db.interactions, reportId, Verify) &&
      forall j :: 0 <= j < |db.reports| ==>
        d.reports[j].(supportCount := db.reports[j].supportCount) == db.reports[j] &&
        (db.reports[j].id != reportId ==> d.reports[j] == db.reports[j])
    ensures var d := VerifyStep(db, reportId, userId).db;
      |d.reports| == |db.reports| && d.profiles == db.profiles &&
      Holders(d.interactions, reportId, Support) == Holders(db.interactions, reportId, Support) &&
      forall j :: 0 <= j < |db.reports| ==>
        d.reports[j].(verifyCount := db.reports[j].verifyCount, status := db.reports[j].status) == db.reports[j] &&
        (db.reports[j].id != reportId ==> d.reports[j] == db.reports[j])
  {
    var s := Interaction(reportId, userId, Support);
    var v := Interaction(reportId, userId, Verify);
    HoldersAdd(db.interactions, s, reportId, Verify);
    HoldersRemove(db.interactions, s, reportId, Verify);
    HoldersAdd(db.interactions, v, reportId, Support);
    HoldersRemove(db.interactions, v, reportId, Support);
  }

  /** Promotion: after a verify that adds, the report is VERIFIED exactly when it was, or it was PENDING and now has five or more. */
  lemma PromotionAtFive(db: Db, reportId: nat, userId: nat)
    requires Consistent(db)
    requires 1 <= reportId <= |db.reports|
    requires Interaction(reportId, userId, Verify) !in db.interactions
    ensures var r := db.reports[reportId - 1];
      var r' := VerifyStep(db, reportId, userId).db.reports[reportId - 1];
      r'.verifyCount == r.verifyCount + 1 &&
      (r'.status == Verified <==> r.status == Verified || (r.status == Pending && r.verifyCount + 1 >= 5))
  {
    FindRowNumber(db, reportId);
  }

  /**
   * As written, a verify counter never gets past 4: an add that would reach 5 is
   * rolled back. Together with the consistency it keeps, this holds in every
   * database the endpoints can produce from an empty one.
   */
  lemma AsWrittenVerifyStaysBelowFive(db: Db, reportId: nat, userId: nat)
    requires Consistent(db)
    requires forall j :: 0 <= j < |db.reports| ==> db.reports[j].verifyCount <= 4
    ensures Consistent(VerifyStepAsWritten(db, reportId, userId).db)
    ensures var d := VerifyStepAsWritten(db, reportId, userId).db;
      |d.reports| == |db.reports| &&
      forall j :: 0 <= j < |d.reports| ==> d.reports[j].verifyCount <= 4 && d.reports[j].status == db.reports[j].status
  {
    FindRowNumber(db, reportId);
    VerifyKeepsConsistency(db, reportId, userId);
    if 1 <= reportId <= |db.reports| {
      var e := Interaction(reportId, userId, Verify);
      if e in db.interactions || db.reports[reportId - 1].verifyCount + 1 < 5 {
        assert VerifyStepAsWritten(db, reportId, userId).db == VerifyStep(db, reportId, userId).db;
      }
    }
  }

  /** A fresh report, as `create_report` stores it. */
  function NewReport(id: nat, userId: nat): Report
  {
    Report(id, userId, "t", "d", Pothole, "a", None, None, None, None, Pending, 0, 0, 0)
  }

  /**
   * The fifth verifier of a PENDING report gets a 500 and the report stays PENDING
   * with four verifications, where the documented behaviour promotes it.
   */
  lemma FifthVerifyFails()
    ensures var r := NewReport(1, 10).(verifyCount := 4);
      var db := Db([r], set u | u in {1, 2, 3, 4} :: Interaction(1, u, Verify), map[]);
      VerifyStepAsWritten(db, 1, 5) == Step(db, InternalError) &&
      VerifyStep(db, 1, 5).response == Toggled(true, 5) &&
      VerifyStep(db, 1, 5).db.reports[0].status == Verified
  {
  }

  // ---------------------------------------------------------------------------
  // create_report
  // ---------------------------------------------------------------------------

  /** The form fields of a new report. */
  datatype ReportForm = ReportForm(
    title: string,
    description: string,
    category: string,
    locationAddress: string,
    locationCity: Option<string>,
    locationLat: Option<real>,
    locationLng: Option<real>)

  /** `create_report`'s answer: 400 for an unknown category, or the stored report. */
  datatype CreateResponse = InvalidCategory(category: string) | Created(report: Report)

  /** Neither end of the text is white space. */
  predicate Trimmed(t: string)
  {
    t == [] || (!IsSpace(t[0]) && !IsSpace(t[|t| - 1]))
  }

  /** The row `create_report` stores: stripped texts, no image yet, PENDING, all counters at 0. */
  function StoredReport(id: nat, userId: nat, category: IssueCategory, form: ReportForm): (r: Report)
    ensures r.id == id && r.userId == userId && r.category == category
    ensures r.status == Pending && r.imageUrl.None? && r.supportCount == 0 && r.verifyCount == 0 && r.views == 0
    ensures Trimmed(r.title) && Trimmed(r.description) && Trimmed(r.locationAddress)
    ensures r.locationCity == form.locationCity && r.locationLat == form.locationLat && r.locationLng == form.locationLng
  {
    Report(id, userId, Strip(form.title), Strip(form.description), category,
      Strip(form.locationAddress), form.locationCity, form.locationLat, form.locationLng, None, Pending, 0, 0, 0)
  }

  function CreateStep(db: Db, userId: nat, form: ReportForm): (s: Step<CreateResponse>)
    ensures s.response.InvalidCategory? <==> ParseCategory(Upper(form.category)).None?
    ensures s.response.InvalidCategory? ==> s.db == db
  {
    match ParseCategory(Upper(form.category))
    case None => Step(db, InvalidCategory(form.category))
    case Some(c) =>
      var r := StoredReport(|db.reports| + 1, userId, c, form);
      var profiles := if userId in db.profiles then db.profiles[userId := db.profiles[userId] + 1] else db.profiles;
      Step(Db(db.reports + [r], db.interactions, profiles), Created(r))
  }

  /**
   * A created report is appended as PENDING with no supports, verifications or
   * views, under the next row number; the author's `total_reported` goes up by one
   * when they have a profile, and no other profile changes.
   */
  lemma CreateCountsReport(db: Db, userId: nat, form: ReportForm)
    requires Consistent(db)
    requires ParseCategory(Upper(form.category)).Some?
    ensures var s := CreateStep(db, userId, form);
      Consistent(s.db) &&
      s.db.reports == db.reports + [s.response.report] &&
      s.response.report.id == |db.reports| + 1 && s.response.report.userId == userId &&
      CategoryName(s.response.report.category) == Upper(form.category) &&
      s.response.report.status == Pending &&
      s.response.report.supportCount == 0 && s.response.report.verifyCount == 0 && s.response.report.views == 0 &&
      s.db.interactions == db.interactions &&
      s.db.profiles.Keys == db.profiles.Keys &&
      (userId in db.profiles ==> s.db.profiles[userId] == db.profiles[userId] + 1) &&
      forall u :: u in db.profiles && u != userId ==> s.db.profiles[u] == db.profiles[u]
  {
    var c := ParseCategory(Upper(form.category)).value;
    var r := StoredReport(|db.reports| + 1, userId, c, form);
    var profiles := if userId in db.profiles then db.profiles[userId := db.profiles[userId] + 1] else db.profiles;
    CreateStepStores(db, userId, form);
    AppendKeepsConsistency(db, r, profiles);
    AuthorCounted(db.profiles, userId);
  }

  /** A known category stores `StoredReport` under the next row number and counts it for its author. */
  lemma CreateStepStores(db: Db, userId: nat, form: ReportForm)
    requires ParseCategory(Upper(form.category)).Some?
    ensures var c := ParseCategory(Upper(form.category)).value;
      var r := StoredReport(|db.reports| + 1, userId, c, form);
      var profiles := if userId in db.profiles then db.profiles[userId := db.profiles[userId] + 1] else db.profiles;
      CreateStep(db, userId, form) == Step(Db(db.reports + [r], db.interactions, profiles), Created(r)) &&
      CategoryName(c) == Upper(form.category)
  {
  }

  /** The profile update of `create_report`: only the author's count, if they have a profile, goes up by one. */
  lemma AuthorCounted(profiles: map<nat, nat>, userId: nat)
    ensures var p := if userId in profiles then profiles[userId := profiles[userId] + 1] else profiles;
      p.Keys == profiles.Keys &&
      (userId in profiles ==> p[userId] == profiles[userId] + 1) &&
      forall u :: u in profiles && u != userId ==> p[u] == profiles[u]
  {
  }

  /** Appending a row numbered after the last one, with both counters at 0, keeps the database consistent. */
  lemma AppendKeepsConsistency(db: Db, r: Report, profiles: map<nat, nat>)
    requires Consistent(db)
    requires r.id == |db.reports| + 1 && r.supportCount == 0 && r.verifyCount == 0
    ensures Consistent(Db(db.reports + [r], db.interactions, profiles))
  {
    var n := |db.reports| + 1;
    forall k: InteractionType ensures Count(db.interactions, n, k) == 0 {
      assert Holders(db.interactions, n, k) == {};
    }
    var reports' := db.reports + [r];
    assert forall i :: 0 <= i < |db.reports| ==> reports'[i] == db.reports[i];
  }

  // ---------------------------------------------------------------------------
  // get_feed
  // ---------------------------------------------------------------------------

  /** The feed's filter: none when no category or an empty one is given, or when it is not a category. */
  function CategoryFilter(category: Option<string>): (f: Option<IssueCategory>)
    ensures category.None? || category.value == "" ==> f.None?
    ensures f.Some? ==> category.Some? && Upper(category.value) == CategoryName(f.value)
  {
    if category.None? || category.value == "" then None else ParseCategory(Upper(category.value))
  }

  predicate Matches(r: Report, filter: Option<IssueCategory>)
  {
    filter.None? || r.category == filter.value
  }

  /**
   * The rows among the first `n` that pass the filter, newest first. Rows are
   * created in order with a clock that does not run backwards, so ordering by
   * creation time descending is ordering by row number descending.
   */
  function NewestFirst(reports: seq<Report>, filter: Option<IssueCategory>, n: nat): (rows: seq<nat>)
    requires n <= |reports|
    ensures forall j :: 0 <= j < |rows| ==> rows[j] < n && Matches(reports[rows[j]], filter)
    ensures forall j, k :: 0 <= j < k < |rows| ==> rows[j] > rows[k]
    ensures forall i :: 0 <= i < n && Matches(reports[i], filter) ==> i in rows
    decreases n
  {
    if n == 0 then []
    else
      var rest := NewestFirst(reports, filter, n - 1);
      if Matches(reports[n - 1], filter) then [n - 1] + rest else rest
  }

  /** `.offset(skip).limit(limit)`. */
  function Page(rows: seq<nat>, skip: nat, limit: nat): (p: seq<nat>)
    ensures |p| <= limit
    ensures |p| == if skip >= |rows| then 0 else if |rows| - skip <= limit then |rows| - skip else limit
    ensures forall j :: 0 <= j < |p| ==> p[j] == rows[skip + j]
  {
    var lo := if skip <= |rows| then skip else |rows|;
    var hi := if skip + limit <= |rows| then skip + limit else |rows|;
    rows[lo..hi]
  }

  /** The rows `get_feed` returns: at most `limit` distinct rows of the requested category, newest first. */
  function FeedRows(reports: seq<Report>, skip: nat, limit: nat, category: Option<string>): (rows: seq<nat>)
    ensures |rows| <= limit
    ensures forall j :: 0 <= j < |rows| ==> rows[j] < |reports| && Matches(reports[rows[j]], CategoryFilter(category))
    ensures forall j, k :: 0 <= j < k < |rows| ==> rows[j] > rows[k]
  {
    Page(NewestFirst(reports, CategoryFilter(category), |reports|), skip, limit)
  }

  /**
   * On the first page (`skip` = 0) the feed holds the newest reports of the
   * category: a matching report left out is older than every report returned.
   */
  lemma FeedIsNewestFirst(reports: seq<Report>, skip: nat, limit: nat, category: Option<string>)
    requires skip == 0
    ensures var rows := FeedRows(reports, skip, limit, category);
      forall i, j :: 0 <= i < |reports| && Matches(reports[i], CategoryFilter(category)) && i !in rows && 0 <= j < |rows| ==> i < rows[j]
  {
    var all := NewestFirst(reports, CategoryFilter(category), |reports|);
    var rows := FeedRows(reports, skip, limit, category);
    assert rows == all[..|rows|];
    forall i, j | 0 <= i < |reports| && Matches(reports[i], CategoryFilter(category)) && i !in rows && 0 <= j < |rows|
      ensures i < rows[j]
    {
      SkippedAreOlder(all, |rows|, i, j);
    }
  }

  /** In a list sorted newest first, an entry outside the first `n` is older than each of them. */
  lemma SkippedAreOlder(all: seq<nat>, n: nat, i: nat, j: nat)
    requires n <= |all|
    requires forall a, b :: 0 <= a < b < |all| ==> all[a] > all[b]
    requires i in all && i !in all[..n] && j < n
    ensures i < all[j]
  {
    var k :| 0 <= k < |all| && all[k] == i;
    assert forall m :: 0 <= m < n ==> all[m] in all[..n];
    assert k >= n;
  }

  /** The report rows after each of `rows` has had its view count raised by one. */
  function Bumped(reports: seq<Report>, rows: seq<nat>): (r: seq<Report>)
    ensures |r| == |reports|
    ensures forall k :: 0 <= k < |reports| ==>
      r[k].(views := reports[k].views) == reports[k] &&
      r[k].views == reports[k].views + (if k in rows then 1 else 0)
  {
    seq(|reports|, k requires 0 <= k < |reports| => if k in rows then reports[k].(views := reports[k].views + 1) else reports[k])
  }

  /** A selected row has exactly one more view and is otherwise unchanged. */
  lemma BumpedAt(reports: seq<Report>, rows: seq<nat>, k: nat)
    requires k < |reports| && k in rows
    ensures Bumped(reports, rows)[k] == reports[k].(views := reports[k].views + 1)
  {
  }

  /** One more loop step of the view counting: bumping the next, not yet bumped, row. */
  lemma BumpOneMore(reports: seq<Report>, rows: seq<nat>, j: nat)
    requires j < |rows| && rows[j] < |reports|
    requires forall a, b :: 0 <= a < b < |rows| ==> rows[a] > rows[b]
    ensures var b := Bumped(reports, rows[..j]);
      Bumped(reports, rows[..j + 1]) == b[rows[j] := b[rows[j]].(views := b[rows[j]].views + 1)]
  {
    var k := rows[j];
    var b := Bumped(reports, rows[..j]);
    var b' := Bumped(reports, rows[..j + 1]);
    assert k !in rows[..j];
    assert forall m :: m in rows[..j + 1] <==> m in rows[..j] || m == k;
    forall m | 0 <= m < |reports|
      ensures b'[m] == b[k := b[k].(views := b[k].views + 1)][m]
    {
    }
  }

  /** Counting views changes no counter, no id and no interaction, so the database stays consistent. */
  lemma FeedKeepsConsistency(db: Db, rows: seq<nat>)
    requires Consistent(db)
    ensures Consistent(db.(reports := Bumped(db.reports, rows)))
  {
    var b := Bumped(db.reports, rows);
    assert forall i :: 0 <= i < |b| ==> b[i].id == db.reports[i].id;
    assert forall i :: 0 <= i < |b| ==> b[i].supportCount == db.reports[i].supportCount && b[i].verifyCount == db.reports[i].verifyCount;
  }

  /** The `report.views += 1` loop of `get_feed`, over the selected rows in page order. */
  method CountViews(reports: seq<Report>, rows: seq<nat>) returns (bumped: seq<Report>)
    requires forall j :: 0 <= j < |rows| ==> rows[j] < |reports|
    requires forall a, b :: 0 <= a < b < |rows| ==> rows[a] > rows[b]
    ensures bumped == Bumped(reports, rows)
  {
    bumped := reports;
    var j := 0;
    while j < |rows|
      invariant 0 <= j <= |rows|
      invariant bumped == Bumped(reports, rows[..j])
    {
      BumpOneMore(reports, rows, j);
      var k := rows[j];
      bumped := bumped[k := bumped[k].(views := bumped[k].views + 1)];
      j := j + 1;
    }
    assert rows[..j] == rows;
  }

  // ---------------------------------------------------------------------------
  // The endpoints over the database object
  // ---------------------------------------------------------------------------

  class ReportDatabase {
    var reports: seq<Report>
    var interactions: set<Interaction>
    var profiles: map<nat, nat>

    function State(): Db
      reads this
    {
      Db(reports, interactions, profiles)
    }

    constructor(profiles0: map<nat, nat>)
      ensures State() == Db([], {}, profiles0)
      ensures Consistent(State())
    {
      reports := [];
      interactions := {};
      profiles := profiles0;
    }

    /** `create_report`: parse the category (400 when unknown), store the report, count it for its author. */
    method CreateReport(userId: nat, form: ReportForm) returns (response: CreateResponse)
      modifies this
      ensures State() == CreateStep(old(State()), userId, form).db
      ensures response == CreateStep(old(State()), userId, form).response
    {
      var issueCategory := ParseCategory(Upper(form.category));
      if issueCategory.None? {
        return InvalidCategory(form.category);
      }
      var report := StoredReport(|reports| + 1, userId, issueCategory.value, form);
      reports := reports + [report];
      if userId in profiles {
        profiles := profiles[userId := profiles[userId] + 1];
      }
      response := Created(report);
    }

    /**
     * `get_feed`: select the page, then count one view for each selected report;
     * the answer shows the reports with their new view counts.
     */
    method GetFeed(skip: nat, limit: nat, category: Option<string>) returns (page: seq<Report>)
      modifies this
      ensures reports == Bumped(old(reports), FeedRows(old(reports), skip, limit, category))
      ensures interactions == old(interactions) && profiles == old(profiles)
      ensures var rows := FeedRows(old(reports), skip, limit, category);
        |page| == |rows| &&
        forall j :: 0 <= j < |rows| ==> page[j] == old(reports)[rows[j]].(views := old(reports)[rows[j]].views + 1)
    {
      var before := reports;
      var rows := FeedRows(before, skip, limit, category);
      var bumped := CountViews(before, rows);
      reports := bumped;
      page := seq(|rows|, m requires 0 <= m < |rows| => bumped[rows[m]]);
      forall m | 0 <= m < |rows|
        ensures page[m] == before[rows[m]].(views := before[rows[m]].views + 1)
      {
        BumpedAt(before, rows, rows[m]);
      }
    }

    /** `toggle_support`. */
    method ToggleSupport(reportId: nat, userId: nat) returns (response: ToggleResponse)
      modifies this
      ensures State() == SupportStep(old(State()), reportId, userId).db
      ensures response == SupportStep(old(State()), reportId, userId).response
    {
      var found := Find(reports, reportId);
      if found.None? {
        return NotFound;
      }
      var i := found.value;
      var report := reports[i];
      var existing := Interaction(reportId, userId, Support);
      if existing in interactions {
        interactions := interactions - {existing};
        var c := Decrement(report.supportCount);
        reports := reports[i := report.(supportCount := c)];
        response := Toggled(false, c);
      } else {
        interactions := interactions + {existing};
        var c := report.supportCount + 1;
        reports := reports[i := report.(supportCount := c)];
        response := Toggled(true, c);
      }
    }

    /** `toggle_verify`, with the promotion of a PENDING report at five verifications. */
    method ToggleVerify(reportId: nat, userId: nat) returns (response: ToggleResponse)
      modifies this
      ensures State() == VerifyStep(old(State()), reportId, userId).db
      ensures response == VerifyStep(old(State()), reportId, userId).response
    {
      var found := Find(reports, reportId);
      if found.None? {
        return NotFound;
      }
      var i := found.value;
      var report := reports[i];
      var existing := Interaction(reportId, userId, Verify);
      if existing in interactions {
        interactions := interactions - {existing};
        var c := Decrement(report.verifyCount);
        reports := reports[i := report.(verifyCount := c)];
        response := Toggled(false, c);
      } else {
        interactions := interactions + {existing};
        var c := report.verifyCount + 1;
        var status := report.status;
        if c >= 5 && status == Pending {
          status := Verified;
        }
        reports := reports[i := report.(verifyCount := c, status := status)];
        response := Toggled(true, c);
      }
    }
  }
}
