/** The switch statements of switch.go. Go evaluates the case labels from the top, runs the
    first clause whose labels hold the tag, and leaves the switch at the end of that clause
    unless the clause ends in `fallthrough`, which runs the next clause's body without
    testing its labels. A switch whose clauses print is modelled as the list of lines it
    prints; one whose clauses return is modelled as the value returned. */
module Switches {
  import opened Spec
  import GoInt
  import Functions

  // ---------- a switch with fallthrough ----------

  /** One `case` clause: its labels, the effects of its body, and whether it ends in
      `fallthrough`. */
  datatype Clause<V, A> = Clause(labels: seq<V>, body: seq<A>, fallthrough: bool)

  /** The index of the first clause whose labels hold `x`. */
  function FirstMatch<V(==), A>(cases: seq<Clause<V, A>>, x: V): (r: Option<nat>)
    ensures r.Some? ==> r.value < |cases| && x in cases[r.value].labels
    ensures r.Some? ==> forall j :: 0 <= j < r.value ==> x !in cases[j].labels
    ensures r.None? <==> forall j :: 0 <= j < |cases| ==> x !in cases[j].labels
  {
    if cases == [] then None
    else if x in cases[0].labels then Some(0)
    else match FirstMatch(cases[1..], x)
      case Some(i) => Some(i + 1)
      case None => None
  }

  /** The effects once control enters clause `i`: its body, then the following clauses'
      bodies for as long as each one falls through. */
  function RunFrom<V, A>(cases: seq<Clause<V, A>>, i: nat): seq<A>
    requires i <= |cases|
    decreases |cases| - i
  {
    if i == |cases| then []
    else cases[i].body + (if cases[i].fallthrough then RunFrom(cases, i + 1) else [])
  }

  /** `switch x { cases...; default: dflt }` with the default clause last. */
  function Switch<V(==), A>(cases: seq<Clause<V, A>>, x: V, dflt: seq<A>): seq<A> {
    match FirstMatch(cases, x)
    case Some(i) => RunFrom(cases, i)
    case None => dflt
  }

  /** The first clause at or after `i` that does not fall through (or the end). */
  function ChainEnd<V, A>(cases: seq<Clause<V, A>>, i: nat): (k: nat)
    requires i <= |cases|
    ensures i <= k <= |cases|
    ensures forall j :: i <= j < k ==> cases[j].fallthrough
    ensures k < |cases| ==> !cases[k].fallthrough
    decreases |cases| - i
  {
    if i == |cases| || !cases[i].fallthrough then i else ChainEnd(cases, i + 1)
  }

  /** The bodies of the clauses `cases[i..k]`, one after another. */
  function Bodies<V, A>(cases: seq<Clause<V, A>>, i: nat, k: nat): seq<A>
    requires i <= k <= |cases|
    decreases k - i
  {
    if i == k then [] else cases[i].body + Bodies(cases, i + 1, k)
  }

  /** Entering clause `i` runs exactly the clauses from `i` through the first one that does
      not fall through; a clause without `fallthrough` runs alone, Go's implicit break. */
  lemma {:induction false} RunFromChain<V, A>(cases: seq<Clause<V, A>>, i: nat)
    requires i <= |cases|
    ensures var k := ChainEnd(cases, i);
      RunFrom(cases, i) == if k < |cases| then Bodies(cases, i, k + 1) else Bodies(cases, i, k)
    decreases |cases| - i
  {
    if i < |cases| {
      if cases[i].fallthrough {
        var k := ChainEnd(cases, i + 1);
        assert ChainEnd(cases, i) == k;
        RunFromChain(cases, i + 1);
        var m := if k < |cases| then k + 1 else k;
        assert Bodies(cases, i, m) == cases[i].body + Bodies(cases, i + 1, m);
      } else {
        assert ChainEnd(cases, i) == i;
        assert Bodies(cases, i + 1, i + 1) == [];
      }
    }
  }

  // ---------- switch number (fallthrough) ----------

  /** The clauses of `switch number` (switch.go:82-94): cases 1 and 2 fall through. */
  function NumberClauses(): seq<Clause<int, string>> {
    [ Clause([1], ["Number is 1"], true),
      Clause([2], ["Number is 2"], true),
      Clause([3], ["Number is 3"], false),
      Clause([4], ["Number is 4"], false) ]
  }

  /** The lines `switch number` prints; it has no default clause. */
  function NumberSwitch(number: int): seq<string> {
    Switch(NumberClauses(), number, [])
  }

  /** "Number is 4" is printed for 4 and for no other number: no case falls into `case 4`. */
  lemma NumberFourOnly(number: int)
    ensures "Number is 4" in NumberSwitch(number) <==> number == 4
  {
    NumberFallthrough(number);
    var four, others := "Number is 4", ["Number is 1", "Number is 2", "Number is 3"];
    assert four[10] == '4';
    assert forall k :: 0 <= k < |others| ==> others[k][10] != '4';
  }

  /** Each case prints its own line and those it falls into: 1 prints the lines for 1, 2
      and 3, and 2 (the program's value) "Number is 2" and "Number is 3"; `case 3` ends the
      chain, so 3 and 4 print only their own line, and an unlisted number prints nothing. */
  lemma NumberFallthrough(number: int)
    ensures NumberSwitch(number) ==
      if number == 1 then ["Number is 1", "Number is 2", "Number is 3"]
      else if number == 2 then ["Number is 2", "Number is 3"]
      else if number == 3 then ["Number is 3"]
      else if number == 4 then ["Number is 4"]
      else []
  {
    var cs := NumberClauses();
    assert RunFrom(cs, 2) == ["Number is 3"];
    assert RunFrom(cs, 1) == ["Number is 2", "Number is 3"];
    if number == 1 {
      assert FirstMatch(cs, number) == Some(0);
    } else if number == 2 {
      assert FirstMatch(cs, number) == Some(1);
    } else if number == 3 {
      assert FirstMatch(cs, number) == Some(2);
    } else if number == 4 {
      assert FirstMatch(cs, number) == Some(3);
    } else {
      assert FirstMatch(cs, number) == None;
    }
  }

  /** The closing tip (switch.go:285-292): `case 1` falls into `case 2`. */
  lemma FallthroughTip()
    ensures Switch([Clause([1], ["Case 1"], true), Clause([2], ["Case 2"], false)], 1, [])
         == ["Case 1", "Case 2"]
  {
    var cs := [Clause([1], ["Case 1"], true), Clause([2], ["Case 2"], false)];
    assert RunFrom(cs, 1) == ["Case 2"];
  }

  // ---------- basic switch ----------

  /** `switch ans` with cases 1, 2 and 10 and a default (switch.go:23-32). */
  function AnswerSwitch(ans: int): seq<string> {
    Switch([Clause([1], ["one"], false), Clause([2], ["two"], false), Clause([10], ["ten"], false)],
           ans, ["not a case"])
  }

  /** Every value prints exactly one line, "not a case" exactly for values outside 1, 2, 10;
      10 prints "ten". */
  lemma AnswerSwitchOneLine(ans: int)
    ensures |AnswerSwitch(ans)| == 1
    ensures AnswerSwitch(ans) == ["not a case"] <==> ans != 1 && ans != 2 && ans != 10
    ensures AnswerSwitch(10) == ["ten"]
  {
    var cs := [Clause([1], ["one"], false), Clause([2], ["two"], false), Clause([10], ["ten"], false)];
    assert RunFrom(cs, 0) == ["one"] && RunFrom(cs, 1) == ["two"] && RunFrom(cs, 2) == ["ten"];
  }

  // ---------- user role permissions (fallthrough) ----------

  /** The privileges the role switch grants. */
  datatype Privilege = FullAccess | ContentModeration | BasicAccess | ReadOnly

  /** The clauses of `switch userRole` (switch.go:204-215): admin falls into moderator,
      moderator into user; guest stands alone. */
  function RoleClauses(): seq<Clause<string, Privilege>> {
    [ Clause(["admin"], [FullAccess], true),
      Clause(["moderator"], [ContentModeration], true),
      Clause(["user"], [BasicAccess], false),
      Clause(["guest"], [ReadOnly], false) ]
  }

  /** The privileges granted to a role, in the order they are printed. */
  function RolePrivileges(role: string): seq<Privilege> {
    Switch(RoleClauses(), role, [])
  }

  /** The privileges of each role, as the fallthrough chain accumulates them. */
  lemma RoleTable(role: string)
    ensures RolePrivileges(role)
         == if role == "admin" then [FullAccess, ContentModeration, BasicAccess]
            else if role == "moderator" then [ContentModeration, BasicAccess]
            else if role == "user" then [BasicAccess]
            else if role == "guest" then [ReadOnly]
            else []
  {
    var cs := RoleClauses();
    assert RunFrom(cs, 3) == [ReadOnly];
    assert RunFrom(cs, 2) == [BasicAccess];
    assert RunFrom(cs, 1) == [ContentModeration, BasicAccess];
    assert RunFrom(cs, 0) == [FullAccess, ContentModeration, BasicAccess];
    if role == "admin" {
      assert FirstMatch(cs, role) == Some(0);
    } else if role == "moderator" {
      assert FirstMatch(cs, role) == Some(1);
    } else if role == "user" {
      assert FirstMatch(cs, role) == Some(2);
    } else if role == "guest" {
      assert FirstMatch(cs, role) == Some(3);
    } else {
      assert forall j :: 0 <= j < |cs| ==> role !in cs[j].labels;
    }
  }

  /** The privileges accumulate down the fallthrough chain: each of admin, moderator and
      user has at least the privileges of the next, and a guest has only read-only access. */
  lemma RolesNest()
    ensures forall p :: p in RolePrivileges("user") ==> p in RolePrivileges("moderator")
    ensures forall p :: p in RolePrivileges("moderator") ==> p in RolePrivileges("admin")
    ensures RolePrivileges("guest") == [ReadOnly]
  {
    RoleTable("admin");
    RoleTable("moderator");
    RoleTable("user");
    RoleTable("guest");
  }

  /** Full access, moderation and read-only access each belong to exactly the roles whose
      chain reaches them, and an unknown role has no privilege. */
  lemma RoleExclusive(role: string)
    ensures FullAccess in RolePrivileges(role) <==> role == "admin"
    ensures ContentModeration in RolePrivileges(role) <==> role == "admin" || role == "moderator"
    ensures ReadOnly in RolePrivileges(role) <==> role == "guest"
    ensures role !in {"admin", "moderator", "user", "guest"} ==> RolePrivileges(role) == []
  {
    RoleTable(role);
    var r := RolePrivileges(role);
    if role == "admin" {
      assert r == [FullAccess, ContentModeration, BasicAccess];
    } else if role == "moderator" {
      assert r == [ContentModeration, BasicAccess];
    } else if role == "user" {
      assert r == [BasicAccess];
    } else if role == "guest" {
      assert r == [ReadOnly];
    } else {
      assert r == [];
    }
  }

  // ---------- switch value with break ----------

  /** `switch value` with a `break` inside the odd clause (switch.go:148-158): the lines it
      prints. */
  function OddEvenSwitch(value: int): seq<string> {
    if value in [1, 3, 5, 7, 9] then
      ["Odd number detected"]
      + (if value == 5 then ["Special case for 5 - breaking early!"]
         else ["This won't print for value 5 due to break"])
    else if value in [2, 4, 6, 8, 10] then ["Even number detected"]
    else []
  }

  /** The `break` skips the rest of the odd clause only for 5; 5 itself prints two lines. */
  lemma OddEvenBreak(value: int)
    ensures "This won't print for value 5 due to break" in OddEvenSwitch(value)
        <==> value in {1, 3, 7, 9}
    ensures OddEvenSwitch(value) == [] <==> !(1 <= value <= 10)
    ensures OddEvenSwitch(5) == ["Odd number detected", "Special case for 5 - breaking early!"]
  {
  }

  // ---------- switch without a tag ----------

  /** The tagless grade switch (switch.go:60-71): the first condition that holds. */
  function ScoreSwitch(score: int): string {
    if score >= 90 then "Grade: A \U{1F3C6}"
    else if score >= 80 then "Grade: B \U{1F44D}"
    else if score >= 70 then "Grade: C \U{1F44C}"
    else if score >= 60 then "Grade: D \U{1F4DA}"
    else "Grade: F \U{274C}"
  }

  /** The line the grade switch prints for a letter grade. */
  function GradeLine(grade: string): string {
    if grade == "A" then "Grade: A \U{1F3C6}"
    else if grade == "B" then "Grade: B \U{1F44D}"
    else if grade == "C" then "Grade: C \U{1F44C}"
    else if grade == "D" then "Grade: D \U{1F4DA}"
    else "Grade: F \U{274C}"
  }

  /** The tagless switch picks the same band as function.go's `getGrade`; 85 prints B. */
  lemma ScoreSwitchIsGetGrade(score: int)
    ensures ScoreSwitch(score) == GradeLine(Functions.Grade(score))
    ensures ScoreSwitch(85) == "Grade: B \U{1F44D}"
  {
  }

  // ---------- weekday / weekend ----------

  /** The three outcomes of `switch day` (switch.go:42-49). */
  datatype DayKind = Weekend | Weekday | InvalidDay

  /** `switch day` with two multi-label cases and a default. */
  function DayOf(day: string): DayKind {
    if day in ["Saturday", "Sunday"] then Weekend
    else if day in ["Monday", "Tuesday", "Wednesday", "Thursday", "Friday"] then Weekday
    else InvalidDay
  }

  /** Saturday and Sunday are the weekend, Monday to Friday the weekdays, anything else is
      invalid; "Monday" is a weekday. */
  lemma DayOfIff(day: string)
    ensures DayOf(day) == Weekend <==> day == "Saturday" || day == "Sunday"
    ensures DayOf(day) == Weekday <==> day in {"Monday", "Tuesday", "Wednesday", "Thursday", "Friday"}
    ensures DayOf(day) == InvalidDay
        <==> day !in {"Saturday", "Sunday", "Monday", "Tuesday", "Wednesday", "Thursday", "Friday"}
    ensures DayOf("Monday") == Weekday
  {
  }

  // ---------- calculator ----------

  /** What the calculator switch produces: a value, the division-by-zero message or the
      unknown-operator message. */
  datatype CalcOutcome = Value(v: int) | DivisionByZero | UnknownOperator

  /** `switch operator` (switch.go:170-185); `/` divides only when `b != 0`, truncating
      toward zero as Go does. */
  function Calculator(a: int, b: int, operator: string): (r: CalcOutcome)
    ensures r == DivisionByZero <==> operator == "/" && b == 0
    ensures r == UnknownOperator <==> operator !in {"+", "-", "*", "/"}
  {
    if operator == "+" then Value(a + b)
    else if operator == "-" then Value(a - b)
    else if operator == "*" then Value(a * b)
    else if operator == "/" then (if b != 0 then Value(GoInt.Quot(a, b)) else DivisionByZero)
    else UnknownOperator
  }

  /** A division that goes through returns the truncated quotient: quotient times divisor
      plus a remainder smaller than the divisor, with the dividend's sign, gives back the
      dividend. `15 / 3` is 5 and `-7 / 2` is -3. */
  lemma CalculatorDivision(a: int, b: int)
    requires b != 0
    ensures Calculator(a, b, "/").Value?
    ensures Calculator(a, b, "/").v * b + GoInt.Rem(a, b) == a
    ensures GoInt.Abs(GoInt.Rem(a, b)) < GoInt.Abs(b)
    ensures GoInt.Rem(a, b) != 0 ==> (GoInt.Rem(a, b) < 0 <==> a < 0)
    ensures Calculator(15, 3, "/") == Value(5)
    ensures Calculator(-7, 2, "/") == Value(-3)
  {
    GoInt.DivisionIdentity(a, b);
  }

  // ---------- getSeason ----------

  /** `getSeason(month)` (switch.go:247-260). */
  function Season(month: int): string {
    if month in [12, 1, 2] then "Winter \U{2744}\U{FE0F}"
    else if month in [3, 4, 5] then "Spring \U{1F338}"
    else if month in [6, 7, 8] then "Summer \U{2600}\U{FE0F}"
    else if month in [9, 10, 11] then "Autumn \U{1F342}"
    else "Invalid month"
  }

  /** The seasons in calendar order, each covering three consecutive months. */
  function SeasonNames(): seq<string> {
    ["Winter \U{2744}\U{FE0F}", "Spring \U{1F338}", "Summer \U{2600}\U{FE0F}", "Autumn \U{1F342}"]
  }

  /** A month is valid exactly when it is 1 to 12, and then its season is the quarter
      `(month mod 12) / 3` of the year counted from December; 3 is spring and 8 is summer. */
  lemma SeasonByQuarter(month: int)
    ensures Season(month) != "Invalid month" <==> 1 <= month <= 12
    ensures 1 <= month <= 12 ==> Season(month) == SeasonNames()[(month % 12) / 3]
    ensures Season(3) == "Spring \U{1F338}" && Season(8) == "Summer \U{2600}\U{FE0F}"
  {
  }
}
