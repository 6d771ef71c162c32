// The static roster of players offered by the team builder
// (Day_11/src/app/data/team.data.ts), and the salary arithmetic over
// lists of players that the budget selector relies on.
module TeamData {
  import opened Seqs

  /** One roster entry: the fields of the `Employee` records in TEAM_DATA. */
  datatype Employee = Employee(id: nat, name: string, age: nat, department: string, salary: int)

  /** The budget ceiling hard-coded by the team builder. */
  const Budget: int := 100000

  /** TEAM_DATA, in declaration order. */
  const Roster: seq<Employee> := [
    Employee(1, "Alice Johnson", 28, "HR", 52000),
    Employee(2, "Bob Smith", 34, "IT", 68000),
    Employee(3, "Charlie Davis", 41, "Finance", 72000),
    Employee(4, "Diana Lee", 25, "Marketing", 48000),
    Employee(5, "Ethan Brown", 30, "Sales", 56000),
    Employee(6, "Fiona Wilson", 37, "Operations", 64000),
    Employee(7, "George Miller", 29, "IT", 59000),
    Employee(8, "Hannah Clark", 32, "Finance", 70000),
    Employee(9, "Ian Turner", 26, "Support", 45000),
    Employee(10, "Julia Adams", 39, "Management", 85000)
  ]

  /** Sum of the salaries of a list of players. */
  function SumSalaries(team: seq<Employee>): int
  {
    if team == [] then 0 else team[0].salary + SumSalaries(team[1..])
  }

  /** True when some entry of `team` carries identifier `id`. */
  predicate HasId(team: seq<Employee>, id: nat)
  {
    exists k :: 0 <= k < |team| && team[k].id == id
  }

  /** No two entries of `team` share an identifier. */
  predicate DistinctIds(team: seq<Employee>)
  {
    forall i, j :: 0 <= i < j < |team| ==> team[i].id != team[j].id
  }

  /** `team.filter(p => p.id !== id)`: drop every entry with identifier `id`. */
  function WithoutId(team: seq<Employee>, id: nat): (r: seq<Employee>)
    ensures |r| <= |team|
    ensures forall p :: p in r <==> p in team && p.id != id
    ensures !HasId(r, id)
  {
    if team == [] then []
    else if team[0].id == id then WithoutId(team[1..], id)
    else [team[0]] + WithoutId(team[1..], id)
  }

  /** Removal by id deletes every entry with that id and keeps every copy of each other entry. */
  lemma {:induction false} WithoutIdCounts(team: seq<Employee>, id: nat)
    ensures forall p: Employee :: p.id != id ==> multiset(WithoutId(team, id))[p] == multiset(team)[p]
    ensures forall p: Employee :: p.id == id ==> multiset(WithoutId(team, id))[p] == 0
  {
    if team != [] {
      WithoutIdCounts(team[1..], id);
      assert team == [team[0]] + team[1..];
    }
  }

  /** Removal by id keeps the remaining players in their original order. */
  lemma {:induction false} WithoutIdKeepsOrder(team: seq<Employee>, id: nat)
    ensures IsSubsequence(WithoutId(team, id), team)
  {
    if team != [] {
      WithoutIdKeepsOrder(team[1..], id);
      var r := WithoutId(team, id);
      if team[0].id == id {
        if r != [] {
          assert r[0] in r;
          assert r[0] != team[0];
        }
      } else {
        assert r[1..] == WithoutId(team[1..], id);
      }
    }
  }

  lemma {:induction false} SumAppend(team: seq<Employee>, p: Employee)
    ensures SumSalaries(team + [p]) == SumSalaries(team) + p.salary
  {
    if team != [] {
      assert (team + [p])[1..] == team[1..] + [p];
      SumAppend(team[1..], p);
    }
  }

  /** Filtering out an identifier that does not occur is the identity. */
  lemma {:induction false} WithoutAbsentId(team: seq<Employee>, id: nat)
    requires !HasId(team, id)
    ensures WithoutId(team, id) == team
  {
    if team != [] {
      assert !HasId(team[1..], id) by {
        forall k | 0 <= k < |team[1..]| ensures team[1..][k].id != id {
          assert team[1..][k] == team[k + 1];
        }
      }
      WithoutAbsentId(team[1..], id);
    }
  }

  /** Filtering keeps the relative order and distinctness of the survivors. */
  lemma {:induction false} WithoutIdDistinct(team: seq<Employee>, id: nat)
    requires DistinctIds(team)
    ensures DistinctIds(WithoutId(team, id))
  {
    if team != [] {
      WithoutIdDistinct(team[1..], id);
      var rest := WithoutId(team[1..], id);
      if team[0].id != id {
        forall p | p in rest ensures p.id != team[0].id {
          var k :| 0 <= k < |team[1..]| && team[1..][k] == p;
          assert team[k + 1] == p;
        }
        var r := [team[0]] + rest;
        forall i, j | 0 <= i < j < |r| ensures r[i].id != r[j].id {
          if i == 0 { assert r[j] in rest; }
          else { assert r[i] == rest[i - 1] && r[j] == rest[j - 1]; }
        }
      }
    }
  }

  /**
   * Removing a member of a list with distinct identifiers by its
   * identifier takes exactly its salary off the sum.
   */
  lemma {:induction false} SumWithoutMember(team: seq<Employee>, p: Employee)
    requires DistinctIds(team) && p in team
    ensures SumSalaries(WithoutId(team, p.id)) == SumSalaries(team) - p.salary
  {
    if team[0] == p {
      assert !HasId(team[1..], p.id) by {
        forall k | 0 <= k < |team[1..]| ensures team[1..][k].id != p.id {
          assert team[1..][k] == team[k + 1];
        }
      }
      WithoutAbsentId(team[1..], p.id);
    } else {
      var k :| 0 <= k < |team| && team[k] == p;
      assert team[0].id != p.id by { assert k != 0; }
      assert p in team[1..] by { assert team[1..][k - 1] == p; }
      SumWithoutMember(team[1..], p);
    }
  }

  lemma {:induction false} SumNonNegative(team: seq<Employee>)
    requires forall p :: p in team ==> p.salary >= 0
    ensures SumSalaries(team) >= 0
  {
    if team != [] {
      assert team[0] in team;
      SumNonNegative(team[1..]);
    }
  }

  /**
   * If every entry of `r` (distinct identifiers) is also in `team`
   * (distinct identifiers), then `team` costs at least as much as `r`.
   */
  lemma {:induction false} SumCovers(r: seq<Employee>, team: seq<Employee>)
    requires DistinctIds(r) && DistinctIds(team)
    requires forall p :: p in r ==> p in team
    requires forall p :: p in team ==> p.salary >= 0
    ensures SumSalaries(team) >= SumSalaries(r)
  {
    if r == [] {
      SumNonNegative(team);
    } else {
      assert r[0] in r;
      var rest := WithoutId(team, r[0].id);
      SumWithoutMember(team, r[0]);
      WithoutIdDistinct(team, r[0].id);
      assert DistinctIds(r[1..]) by {
        forall i, j | 0 <= i < j < |r[1..]| ensures r[1..][i].id != r[1..][j].id {
          assert r[1..][i] == r[i + 1] && r[1..][j] == r[j + 1];
        }
      }
      forall p | p in r[1..] ensures p in rest {
        var k :| 0 <= k < |r[1..]| && r[1..][k] == p;
        assert r[k + 1] == p;
      }
      SumCovers(r[1..], rest);
      assert SumSalaries(r) == r[0].salary + SumSalaries(r[1..]);
    }
  }

  /** The roster's identifiers 1..10 are pairwise distinct, which removal by id relies on. */
  lemma RosterIdsDistinct()
    ensures |Roster| == 10
    ensures DistinctIds(Roster)
    ensures forall k :: 0 <= k < |Roster| ==> Roster[k].id == k + 1
  {
  }

  /** Every salary is positive and within the ceiling, so any one player fits an empty team. */
  lemma RosterSalariesFit()
    ensures forall p :: p in Roster ==> 0 < p.salary <= Budget
  {
  }

  /** Alice (52000) and Diana (48000) fit exactly at the ceiling. */
  lemma AliceAndDianaFitExactly()
    ensures Roster[0].name == "Alice Johnson" && Roster[3].name == "Diana Lee"
    ensures SumSalaries([Roster[0], Roster[3]]) == Budget
  {
    assert [Roster[0], Roster[3]][1..] == [Roster[3]] && [Roster[3]][1..] == [];
    assert SumSalaries([Roster[3]]) == 48000;
  }

  /** Charlie (72000) and Alice (52000) together exceed the ceiling. */
  lemma CharlieAndAliceExceed()
    ensures Roster[2].name == "Charlie Davis" && Roster[0].name == "Alice Johnson"
    ensures SumSalaries([Roster[2], Roster[0]]) == 124000 > Budget
  {
    assert [Roster[2], Roster[0]][1..] == [Roster[0]] && [Roster[0]][1..] == [];
    assert SumSalaries([Roster[0]]) == 52000;
  }

  /** The whole roster costs 619000. */
  lemma RosterTotal()
    ensures SumSalaries(Roster) == 619000
  {
  }

  /**
   * No list of distinct players within the budget can contain the whole
   * roster: the full roster can never be selected.
   */
  lemma FullRosterNeverFits(team: seq<Employee>)
    requires DistinctIds(team) && SumSalaries(team) <= Budget
    requires forall p :: p in team ==> p in Roster
    ensures exists p :: p in Roster && p !in team
  {
    if forall p :: p in Roster ==> p in team {
      RosterIdsDistinct();
      RosterSalariesFit();
      SumCovers(Roster, team);
      RosterTotal();
      assert false;
    }
  }
}
