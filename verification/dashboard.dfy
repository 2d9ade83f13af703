/**
  The employee retention dashboard (app/page.tsx): the employee list filter,
  the risk-level counts and their rounded shares, the high-risk alert and
  recommendation list, the risk badge mappings and the risk-factor preview.

  Everything here is derived from a sequence of employee records on every
  render; nothing is mutated, so the model is functions over `seq<Employee>`.
  The risk level is stored in each record as a string: the page computes no
  level from the score.
*/
module RetentionDashboard {

  import opened Wrappers
  import opened Seqs
  import opened Text

  datatype RiskFactor = RiskFactor(factor: string, impact: real)

  datatype Employee = Employee(
    id: string,
    name: string,
    department: string,
    position: string,
    riskScore: int,
    riskLevel: string,
    joinDate: string,
    age: int,
    topRiskFactors: seq<RiskFactor>)

  const High: string := "HIGH"
  const Medium: string := "MEDIUM"
  const Low: string := "LOW"

  /** The department select's "every department" value. */
  const AllDepartments: string := "all"

  /** At most this many risk factors are previewed per employee. */
  const FactorPreviewLength: nat := 3

  predicate IsKnownLevel(level: string) {
    level == High || level == Medium || level == Low
  }

  // ---------------------------------------------------------------------
  // Badge mappings

  /** The badge variants the risk badge can take. */
  datatype BadgeVariant = Default | Destructive | Secondary

  /** `getRiskBadgeColor`: total over all strings. */
  function RiskBadgeColor(level: string): (v: BadgeVariant)
    ensures v == Destructive <==> level == High
    ensures v == Secondary <==> level == Low
    ensures v == Default <==> level != High && level != Low
  {
    match level
    case "HIGH" => Destructive
    case "MEDIUM" => Default
    case "LOW" => Secondary
    case _ => Default
  }

  /** `getRiskLevelText`: Japanese labels for the three levels. */
  function RiskLevelText(level: string): (text: string)
    ensures !IsKnownLevel(level) ==> text == level
    ensures IsKnownLevel(level) ==> !IsKnownLevel(text)
  {
    match level
    case "HIGH" => "高リスク"
    case "MEDIUM" => "中リスク"
    case "LOW" => "低リスク"
    case _ => level
  }

  /**
    The three known levels get three different labels, so the label tells the
    level apart; an unknown level is shown verbatim.
  */
  lemma RiskLevelTextDistinguishesKnownLevels(a: string, b: string)
    requires IsKnownLevel(a) && IsKnownLevel(b)
    ensures RiskLevelText(a) == RiskLevelText(b) <==> a == b
  {
    if a != b {
      assert RiskLevelText(a)[0] != RiskLevelText(b)[0];
    }
  }

  // ---------------------------------------------------------------------
  // Employee list filter

  /** The search box: name or department contains the term, case-insensitively. */
  predicate MatchesSearch(e: Employee, searchTerm: string) {
    Includes(Lower(e.name), Lower(searchTerm)) || Includes(Lower(e.department), Lower(searchTerm))
  }

  /** The department select: "all", or exactly the record's department. */
  predicate MatchesDepartment(e: Employee, departmentFilter: string) {
    departmentFilter == AllDepartments || e.department == departmentFilter
  }

  predicate IsListed(e: Employee, searchTerm: string, departmentFilter: string) {
    MatchesSearch(e, searchTerm) && MatchesDepartment(e, departmentFilter)
  }

  /** `filteredEmployees`: the records shown on the employee list tab. */
  function FilteredEmployees(employees: seq<Employee>, searchTerm: string, departmentFilter: string): (r: seq<Employee>)
    ensures forall e :: e in r ==> e in employees && MatchesSearch(e, searchTerm) && MatchesDepartment(e, departmentFilter)
    ensures forall e :: e in employees && MatchesSearch(e, searchTerm) && MatchesDepartment(e, departmentFilter) ==> e in r
    ensures departmentFilter != AllDepartments ==> forall e :: e in r ==> e.department == departmentFilter
    ensures forall e {:trigger multiset(r)[e]} :: multiset(r)[e] == if IsListed(e, searchTerm, departmentFilter) then multiset(employees)[e] else 0
  {
    FilterCounts(employees, e => IsListed(e, searchTerm, departmentFilter));
    Filter(employees, e => IsListed(e, searchTerm, departmentFilter))
  }

  /** The filtered list keeps the input order: it is a subsequence of the input. */
  lemma FilteredEmployeesPreservesOrder(employees: seq<Employee>, searchTerm: string, departmentFilter: string)
    ensures IsSubsequence(FilteredEmployees(employees, searchTerm, departmentFilter), employees)
  {
    FilterIsSubsequence(employees, e => IsListed(e, searchTerm, departmentFilter));
  }

  /** With an empty search box and "all" departments, every record is listed, in order. */
  lemma UnfilteredListIsEverything(employees: seq<Employee>)
    ensures FilteredEmployees(employees, "", AllDepartments) == employees
  {
    assert Lower("") == "";
    forall e | e in employees ensures IsListed(e, "", AllDepartments) {
      IncludesEmpty(Lower(e.name));
    }
    FilterKeepsAll(employees, e => IsListed(e, "", AllDepartments));
  }

  /** Search only sees the lower-cased term: changing its letter case changes nothing. */
  lemma SearchIsCaseInsensitive(employees: seq<Employee>, searchTerm: string, departmentFilter: string)
    ensures FilteredEmployees(employees, Lower(searchTerm), departmentFilter)
         == FilteredEmployees(employees, searchTerm, departmentFilter)
  {
    LowerIdempotent(searchTerm);
    FilterCongruent(employees,
      e => IsListed(e, Lower(searchTerm), departmentFilter),
      e => IsListed(e, searchTerm, departmentFilter));
  }

  /** Two search terms with the same lower-case form list the same records. */
  lemma SearchDependsOnlyOnLoweredTerm(employees: seq<Employee>, t1: string, t2: string, departmentFilter: string)
    requires Lower(t1) == Lower(t2)
    ensures FilteredEmployees(employees, t1, departmentFilter) == FilteredEmployees(employees, t2, departmentFilter)
  {
    FilterCongruent(employees,
      e => IsListed(e, t1, departmentFilter),
      e => IsListed(e, t2, departmentFilter));
  }

  // ---------------------------------------------------------------------
  // Risk-level counts and shares

  predicate HasLevel(e: Employee, level: string) {
    e.riskLevel == level
  }

  /** `employees.filter(emp => emp.riskLevel === level).length`. */
  function LevelCount(employees: seq<Employee>, level: string): (n: nat)
    ensures n <= |employees|
    ensures n == 0 <==> forall e :: e in employees ==> e.riskLevel != level
  {
    var matching := Filter(employees, e => HasLevel(e, level));
    assert matching != [] ==> matching[0] in matching;
    |matching|
  }

  /** The records whose level is none of the three. */
  function UnclassifiedEmployees(employees: seq<Employee>): (r: seq<Employee>)
    ensures forall e :: e in r ==> e in employees && !IsKnownLevel(e.riskLevel)
    ensures forall e :: e in employees && !IsKnownLevel(e.riskLevel) ==> e in r
    ensures forall e {:trigger multiset(r)[e]} :: multiset(r)[e] == if IsKnownLevel(e.riskLevel) then 0 else multiset(employees)[e]
  {
    FilterCounts(employees, (e: Employee) => !IsKnownLevel(e.riskLevel));
    Filter(employees, (e: Employee) => !IsKnownLevel(e.riskLevel))
  }

  /** The three counts and the unclassified records together account for every record. */
  lemma {:induction false} LevelCountsPartition(employees: seq<Employee>)
    ensures LevelCount(employees, High) + LevelCount(employees, Medium) + LevelCount(employees, Low)
          + |UnclassifiedEmployees(employees)| == |employees|
    decreases |employees|
  {
    if employees != [] {
      LevelCountsPartition(employees[1..]);
    }
  }

  /** The three counts add up to the total exactly when every level is one of the three. */
  lemma LevelCountsSumToTotal(employees: seq<Employee>)
    ensures LevelCount(employees, High) + LevelCount(employees, Medium) + LevelCount(employees, Low) == |employees|
        <==> forall e :: e in employees ==> IsKnownLevel(e.riskLevel)
  {
    LevelCountsPartition(employees);
    var rest := UnclassifiedEmployees(employees);
    if rest != [] {
      assert rest[0] in rest;
    }
  }

  /**
    `Math.round(n / d)` for `n >= 0` and `d > 0`: the integer nearest to
    n/d, a half rounded up.
  */
  function RoundHalfUp(n: nat, d: nat): (r: nat)
    requires d > 0
    ensures 2 * n - d < 2 * d * r <= 2 * n + d
  {
    (2 * n + d) / (2 * d)
  }

  /**
    `Math.round((count / total) * 100)`, the "全体の N%" share; `None` stands
    for the `NaN` (or, were `count > 0`, the `Infinity`) that a total of zero
    produces. At every call site the count is a filter of the same list, so
    `count <= total`.
  */
  function SharePercent(count: nat, total: nat): (r: Option<nat>)
    ensures r.None? <==> total == 0
    ensures r.Some? ==> 200 * count - total < 2 * total * r.value <= 200 * count + total
  {
    if total == 0 then None else Some(RoundHalfUp(100 * count, total))
  }

  /** A share of a part of the whole lies between 0 and 100 percent. */
  lemma SharePercentBounded(count: nat, total: nat)
    requires 0 < total && count <= total
    ensures SharePercent(count, total).Some?
    ensures SharePercent(count, total).value <= 100
  {
    var p := SharePercent(count, total).value;
    assert 2 * total * p <= 201 * total;
    MultiplyCancelStrict(2 * total, p, 101);
  }

  lemma MultiplyCancelStrict(k: nat, a: nat, b: nat)
    requires k > 0 && k * a < k * b
    ensures a < b
  {
  }

  /** Each displayed share is within [0, 100]. */
  lemma LevelSharesBounded(employees: seq<Employee>, level: string)
    requires employees != []
    ensures SharePercent(LevelCount(employees, level), |employees|).Some?
    ensures SharePercent(LevelCount(employees, level), |employees|).value <= 100
  {
    SharePercentBounded(LevelCount(employees, level), |employees|);
  }

  // ---------------------------------------------------------------------
  // High-risk alert and recommendations

  predicate IsHighRisk(e: Employee) {
    e.riskLevel == High
  }

  /** The recommendations tab: one card per HIGH-level employee, in list order. */
  function Recommendations(employees: seq<Employee>): (r: seq<Employee>)
    ensures forall e :: e in r ==> e in employees && e.riskLevel == High
    ensures forall e :: e in employees && e.riskLevel == High ==> e in r
    ensures forall e {:trigger multiset(r)[e]} :: multiset(r)[e] == if e.riskLevel == High then multiset(employees)[e] else 0
  {
    FilterCounts(employees, IsHighRisk);
    Filter(employees, IsHighRisk)
  }

  /** The banner at the top of the page: shown iff `highRiskCount > 0`. */
  predicate HighRiskAlertShown(employees: seq<Employee>) {
    LevelCount(employees, High) > 0
  }

  /** The recommendation list is in input order and has one card per high-risk employee. */
  lemma RecommendationsMatchHighRiskCount(employees: seq<Employee>)
    ensures IsSubsequence(Recommendations(employees), employees)
    ensures |Recommendations(employees)| == LevelCount(employees, High)
  {
    FilterIsSubsequence(employees, IsHighRisk);
    FilterCongruent(employees, IsHighRisk, e => HasLevel(e, High));
  }

  /** The alert appears exactly when some employee is HIGH, i.e. when there is a recommendation. */
  lemma HighRiskAlertIffRecommendations(employees: seq<Employee>)
    ensures HighRiskAlertShown(employees) <==> exists e :: e in employees && e.riskLevel == High
    ensures HighRiskAlertShown(employees) <==> Recommendations(employees) != []
  {
    RecommendationsMatchHighRiskCount(employees);
    var r := Recommendations(employees);
    if r != [] {
      assert r[0] in r;
    }
  }

  // ---------------------------------------------------------------------
  // Risk-factor preview

  /** `topRiskFactors.slice(0, 3)`, rendered only inside the HIGH-level block. */
  function DisplayedRiskFactors(e: Employee): (shown: seq<RiskFactor>)
    ensures |shown| <= FactorPreviewLength
    ensures shown <= e.topRiskFactors
    ensures e.riskLevel == High ==> |shown| == if |e.topRiskFactors| < FactorPreviewLength then |e.topRiskFactors| else FactorPreviewLength
    ensures e.riskLevel != High ==> shown == []
  {
    if e.riskLevel != High then []
    else if |e.topRiskFactors| < FactorPreviewLength then e.topRiskFactors
    else e.topRiskFactors[..FactorPreviewLength]
  }

  // ---------------------------------------------------------------------
  // The page's own records

  const Tanaka: Employee := Employee("EMP001", "田中 太郎", "営業部", "主任", 85, High, "2020-04-01", 32,
    [RiskFactor("ワークライフバランス", 0.3), RiskFactor("キャリア成長", 0.25), RiskFactor("上司との関係", 0.2)])
  const Sato: Employee := Employee("EMP002", "佐藤 花子", "開発部", "シニアエンジニア", 45, Medium, "2019-07-15", 28,
    [RiskFactor("報酬・待遇", 0.35), RiskFactor("スキルマッチ", 0.15)])
  const Suzuki: Employee := Employee("EMP003", "鈴木 一郎", "人事部", "マネージャー", 25, Low, "2018-03-01", 35,
    [RiskFactor("職場環境", 0.1)])
  const Yamada: Employee := Employee("EMP004", "山田 美咲", "マーケティング部", "スペシャリスト", 72, High, "2021-01-10", 29,
    [RiskFactor("キャリア成長", 0.4), RiskFactor("労働時間", 0.25)])

  /** The page's own employee records. */
  const MockEmployees: seq<Employee> := [Tanaka, Sato, Suzuki, Yamada]

  /** Counting one more record adds one exactly when it has the level. */
  lemma LevelCountCons(employees: seq<Employee>, level: string)
    requires employees != []
    ensures LevelCount(employees, level)
         == (if employees[0].riskLevel == level then 1 else 0) + LevelCount(employees[1..], level)
  {
  }

  /** The counts the page shows for its own records: 2 HIGH, 1 MEDIUM, 1 LOW of 4. */
  lemma MockLevelCounts()
    ensures LevelCount(MockEmployees, High) == 2
    ensures LevelCount(MockEmployees, Medium) == 1
    ensures LevelCount(MockEmployees, Low) == 1
  {
    var s0 := MockEmployees;
    var s1 := s0[1..];
    var s2 := s1[1..];
    var s3 := s2[1..];
    assert s3[1..] == [];
    forall level | level in {High, Medium, Low}
      ensures LevelCount(s0, level)
           == (if s0[0].riskLevel == level then 1 else 0) + (if s1[0].riskLevel == level then 1 else 0)
            + (if s2[0].riskLevel == level then 1 else 0) + (if s3[0].riskLevel == level then 1 else 0)
    {
      LevelCountCons(s0, level);
      LevelCountCons(s1, level);
      LevelCountCons(s2, level);
      LevelCountCons(s3, level);
    }
  }

  /** ... and the shares it prints for them: 50%, 25% and 25%. */
  lemma MockShares()
    ensures SharePercent(LevelCount(MockEmployees, High), |MockEmployees|) == Some(50)
    ensures SharePercent(LevelCount(MockEmployees, Medium), |MockEmployees|) == Some(25)
    ensures SharePercent(LevelCount(MockEmployees, Low), |MockEmployees|) == Some(25)
  {
    MockLevelCounts();
  }

  /** The recommendations tab lists 田中 太郎 and 山田 美咲, in that order. */
  lemma MockRecommendations()
    ensures Recommendations(MockEmployees) == [Tanaka, Yamada]
  {
    var s0 := MockEmployees;
    var s1 := s0[1..];
    var s2 := s1[1..];
    var s3 := s2[1..];
    assert s3[1..] == [];
    assert IsHighRisk(s0[0]) && !IsHighRisk(s1[0]) && !IsHighRisk(s2[0]) && IsHighRisk(s3[0]);
    assert Filter(s3, IsHighRisk) == [s3[0]];
    assert Filter(s2, IsHighRisk) == [s3[0]];
    assert Filter(s1, IsHighRisk) == [s3[0]];
  }

  /** A field without 中 cannot contain 田中, in either letter case. */
  lemma NotFoundWithoutChar(field: string)
    requires '中' !in field
    ensures !Includes(Lower(field), Lower("田中"))
  {
    LowerWithoutCapitals("田中");
    forall i | 0 <= i < |field| ensures Lower(field)[i] != '中' {
      assert field[i] != '中';
    }
    IncludesNeedsChar(Lower(field), "田中", 1);
  }

  /** A record whose name and department lack 中 is not listed for the search 田中, whatever the department filter. */
  lemma NotFoundBySurname(e: Employee, departmentFilter: string)
    requires '中' !in e.name && '中' !in e.department
    ensures !MatchesSearch(e, "田中")
    ensures !IsListed(e, "田中", departmentFilter)
  {
    NotFoundWithoutChar(e.name);
    NotFoundWithoutChar(e.department);
  }

  /** 田中 太郎 matches the search 田中 by name. */
  lemma FoundBySurname()
    ensures IsListed(Tanaka, "田中", AllDepartments)
  {
    LowerWithoutCapitals("田中");
    LowerWithoutCapitals("田中 太郎");
    assert IsPrefix("田中", "田中 太郎");
  }

  /** None of the page's other three records matches a search for 田中. */
  lemma MockOthersNotFoundBySurname(k: nat)
    requires 1 <= k < |MockEmployees|
    ensures !IsListed(MockEmployees[k], "田中", AllDepartments)
  {
    var e := MockEmployees[k];
    if k == 1 {
      assert '中' !in Sato.name && '中' !in Sato.department;
    } else if k == 2 {
      assert '中' !in Suzuki.name && '中' !in Suzuki.department;
    } else {
      assert '中' !in Yamada.name && '中' !in Yamada.department;
    }
    NotFoundBySurname(e, AllDepartments);
  }

  /** Of the page's records, searching for 田中 over all departments lists 田中 太郎 and no one else. */
  lemma MockSearchByName()
    ensures FilteredEmployees(MockEmployees, "田中", AllDepartments) == [Tanaka]
  {
    FoundBySurname();
    MockOthersNotFoundBySurname(1);
    MockOthersNotFoundBySurname(2);
    MockOthersNotFoundBySurname(3);
    var s0 := MockEmployees;
    var s1 := s0[1..];
    var s2 := s1[1..];
    var s3 := s2[1..];
    assert s3[1..] == [];
    var listed := (e: Employee) => IsListed(e, "田中", AllDepartments);
    assert Filter(s3, listed) == [] + Filter(s3[1..], listed);
    assert Filter(s2, listed) == [] + Filter(s3, listed);
    assert Filter(s1, listed) == [] + Filter(s2, listed);
    assert Filter(s0, listed) == [Tanaka] + Filter(s1, listed);
  }
}
