// The team budget selector of Day_11/src/app/team-builder/team-builder.ts:
// a player list whose checkboxes add players to a team as long as the
// total salary stays within 100000, with a transient error banner when a
// selection is refused.
module TeamBuilder {
  import opened TeamData

  /** The banner text raised when a selection would exceed the budget. */
  const BudgetExceededMessage: string := "Budget exceeded! Cannot add player."

  /** The component's four state signals. */
  datatype TeamState = TeamState(myTeam: seq<Employee>, totalCost: int, showError: bool, errorMessage: string)

  /** The signals' initial values: an empty team, nothing spent, no banner. */
  const Initial: TeamState := TeamState([], 0, false, "")

  /** The result of one change event: the new state and the checkbox's final `checked`. */
  datatype Toggled = Toggled(state: TeamState, checked: bool)

  /** The synchronous part of `showErrorModal`: set the message, show the banner. */
  function RaiseError(s: TeamState, message: string): TeamState
  {
    s.(errorMessage := message, showError := true)
  }

  /** The deferred callback `showErrorModal` schedules: hide the banner. */
  function HideError(s: TeamState): TeamState
  {
    s.(showError := false)
  }

  /**
   * `onPlayerToggle(player, event)`, where `checked` is the checkbox's
   * state when the change event fires.
   */
  function Toggle(s: TeamState, player: Employee, checked: bool): (r: Toggled)
    ensures r.checked <==> checked && s.totalCost + player.salary <= Budget
    ensures r.state.showError != s.showError || r.state.errorMessage != s.errorMessage ==> checked && !r.checked
  {
    if checked then
      var newPrice := s.totalCost + player.salary;
      if newPrice <= Budget then
        Toggled(s.(totalCost := newPrice, myTeam := s.myTeam + [player]), true)
      else
        Toggled(RaiseError(s, BudgetExceededMessage), false)
    else
      Toggled(s.(totalCost := s.totalCost - player.salary, myTeam := WithoutId(s.myTeam, player.id)), false)
  }

  /**
   * The selector's invariant: the total is the sum of the team's salaries,
   * it is within the budget, and no player is in the team twice.
   */
  predicate Valid(s: TeamState)
  {
    s.totalCost == SumSalaries(s.myTeam) && s.totalCost <= Budget && DistinctIds(s.myTeam)
  }

  /** The class test behind the total's badge: red when over budget. */
  predicate OverBudgetBadge(s: TeamState)
  {
    s.totalCost > 100000
  }

  /** A checked player is committed exactly when the new total is within the (inclusive) ceiling. */
  lemma CheckCommitsWithinBudget(s: TeamState, player: Employee)
    requires s.totalCost + player.salary <= Budget
    ensures Toggle(s, player, true).checked
    ensures Toggle(s, player, true).state == s.(totalCost := s.totalCost + player.salary, myTeam := s.myTeam + [player])
  {
  }

  /** Over the ceiling nothing is committed, the banner is raised and the box is forced back. */
  lemma CheckRejectedOverBudget(s: TeamState, player: Employee)
    requires s.totalCost + player.salary > Budget
    ensures !Toggle(s, player, true).checked
    ensures Toggle(s, player, true).state.myTeam == s.myTeam
    ensures Toggle(s, player, true).state.totalCost == s.totalCost
    ensures Toggle(s, player, true).state.showError
    ensures Toggle(s, player, true).state.errorMessage == BudgetExceededMessage
  {
  }

  /** Unchecking subtracts the salary and drops every entry with the player's id, keeping order. */
  lemma UncheckRemovesById(s: TeamState, player: Employee)
    ensures Toggle(s, player, false).state.totalCost == s.totalCost - player.salary
    ensures Toggle(s, player, false).state.myTeam == WithoutId(s.myTeam, player.id)
    ensures Toggle(s, player, false).state.showError == s.showError
    ensures Toggle(s, player, false).state.errorMessage == s.errorMessage
  {
  }

  lemma {:induction false} AppendDistinct(team: seq<Employee>, p: Employee)
    requires DistinctIds(team) && !HasId(team, p.id)
    ensures DistinctIds(team + [p])
  {
    var r := team + [p];
    forall i, j | 0 <= i < j < |r| ensures r[i].id != r[j].id {
      if j == |team| {
        assert r[i] == team[i];
      } else {
        assert r[i] == team[i] && r[j] == team[j];
      }
    }
  }

  /**
   * Every toggle keeps the invariant, provided a player is checked only
   * while absent and unchecked only while present (the source does not
   * check the latter: unchecking a non-member would still subtract).
   * Salaries are taken to be non-negative, as every roster salary is.
   */
  lemma ToggleKeepsInvariant(s: TeamState, player: Employee, checked: bool)
    requires Valid(s) && player.salary >= 0
    requires checked ==> !HasId(s.myTeam, player.id)
    requires !checked ==> player in s.myTeam
    ensures Valid(Toggle(s, player, checked).state)
  {
    if checked {
      if s.totalCost + player.salary <= Budget {
        SumAppend(s.myTeam, player);
        AppendDistinct(s.myTeam, player);
      }
    } else {
      SumWithoutMember(s.myTeam, player);
      WithoutIdDistinct(s.myTeam, player.id);
    }
  }

  /** Under the invariant the red "over" badge is never shown. */
  lemma NoOverBudgetBadge(s: TeamState)
    requires Valid(s)
    ensures !OverBudgetBadge(s)
  {
  }

  lemma {:induction false} WithoutIdAppended(team: seq<Employee>, p: Employee)
    requires !HasId(team, p.id)
    ensures WithoutId(team + [p], p.id) == team
  {
    if team == [] {
      assert [p][1..] == [];
    } else {
      assert (team + [p])[1..] == team[1..] + [p];
      assert !HasId(team[1..], p.id) by {
        forall k | 0 <= k < |team[1..]| ensures team[1..][k].id != p.id {
          assert team[1..][k] == team[k + 1];
        }
      }
      WithoutIdAppended(team[1..], p);
    }
  }

  /** Checking an absent player that fits and then unchecking it restores team and total. */
  lemma CheckThenUncheckRestores(s: TeamState, player: Employee)
    requires !HasId(s.myTeam, player.id)
    requires s.totalCost + player.salary <= Budget
    ensures Toggle(Toggle(s, player, true).state, player, false).state == s
  {
    WithoutIdAppended(s.myTeam, player);
  }

  /** The timer callback only hides the banner; the message stays as it was. */
  lemma HideErrorKeepsMessage(s: TeamState)
    ensures !HideError(s).showError
    ensures HideError(s).errorMessage == s.errorMessage
    ensures HideError(s).myTeam == s.myTeam && HideError(s).totalCost == s.totalCost
  {
  }

  // ---------------------------------------------------------------------
  // The page: one checkbox per roster entry, in roster order. A click
  // flips the box in the browser and then fires the change handler.
  // ---------------------------------------------------------------------

  datatype Page = Page(state: TeamState, boxes: seq<bool>)

  /** The page as first rendered: every box unchecked. */
  function InitialPage(): (p: Page)
    ensures |p.boxes| == |Roster|
    ensures forall k :: 0 <= k < |p.boxes| ==> !p.boxes[k]
  {
    Page(Initial, seq(|Roster|, _ => false))
  }

  /** The user clicks the checkbox of roster entry `i`. */
  function Click(p: Page, i: nat): (r: Page)
    requires i < |Roster| && |p.boxes| == |Roster|
    ensures |r.boxes| == |Roster|
    ensures forall k :: 0 <= k < |Roster| && k != i ==> r.boxes[k] == p.boxes[k]
  {
    var t := Toggle(p.state, Roster[i], !p.boxes[i]);
    Page(t.state, p.boxes[i := t.checked])
  }

  /** A sequence of clicks on roster entries. */
  function Clicks(p: Page, clicks: seq<nat>): (r: Page)
    requires |p.boxes| == |Roster|
    requires forall k :: 0 <= k < |clicks| ==> clicks[k] < |Roster|
    ensures |r.boxes| == |Roster|
    decreases |clicks|
  {
    if clicks == [] then p else Clicks(Click(p, clicks[0]), clicks[1..])
  }

  /**
   * The page invariant: the selector's invariant, the team holds only
   * roster entries, and a box is checked exactly when its player is in the team.
   */
  predicate PageInvariant(p: Page)
  {
    && |p.boxes| == |Roster|
    && Valid(p.state)
    && (forall q :: q in p.state.myTeam ==> q in Roster)
    && (forall k :: 0 <= k < |Roster| ==> (p.boxes[k] <==> Roster[k] in p.state.myTeam))
  }

  /** In a team drawn from the roster, an id present means that very roster entry is present. */
  lemma RosterEntryById(team: seq<Employee>, k: nat)
    requires k < |Roster|
    requires forall q :: q in team ==> q in Roster
    requires HasId(team, Roster[k].id)
    ensures Roster[k] in team
  {
    RosterIdsDistinct();
    var j :| 0 <= j < |team| && team[j].id == Roster[k].id;
    assert team[j] in Roster;
    var m :| 0 <= m < |Roster| && Roster[m] == team[j];
  }

  lemma ClickKeepsPageInvariant(p: Page, i: nat)
    requires PageInvariant(p) && i < |Roster|
    ensures PageInvariant(Click(p, i))
  {
    RosterIdsDistinct();
    RosterSalariesFit();
    var s, player := p.state, Roster[i];
    var r := Click(p, i);
    if !p.boxes[i] {
      if HasId(s.myTeam, player.id) {
        RosterEntryById(s.myTeam, i);
        assert false;
      }
      ToggleKeepsInvariant(s, player, true);
      if s.totalCost + player.salary <= Budget {
        forall k | 0 <= k < |Roster| ensures (r.boxes[k] <==> Roster[k] in r.state.myTeam) {
          assert k != i ==> Roster[k] != player by { assert Roster[k].id == k + 1; }
        }
      }
    } else {
      ToggleKeepsInvariant(s, player, false);
      forall k | 0 <= k < |Roster| ensures (r.boxes[k] <==> Roster[k] in r.state.myTeam) {
        assert k != i ==> Roster[k].id != player.id;
      }
    }
  }

  /**
   * Whatever the sequence of clicks from the first rendering, the total
   * equals the sum of the team's salaries, stays within the budget, and
   * each box shows whether its player is in the team.
   */
  lemma {:induction false} ClicksKeepPageInvariant(p: Page, clicks: seq<nat>)
    requires PageInvariant(p)
    requires forall k :: 0 <= k < |clicks| ==> clicks[k] < |Roster|
    ensures PageInvariant(Clicks(p, clicks))
    decreases |clicks|
  {
    if clicks != [] {
      var q, rest := Click(p, clicks[0]), clicks[1..];
      assert PageInvariant(q) by {
        ClickKeepsPageInvariant(p, clicks[0]);
      }
      assert forall k :: 0 <= k < |rest| ==> rest[k] < |Roster| by {
        forall k | 0 <= k < |rest| ensures rest[k] < |Roster| {
          assert rest[k] == clicks[k + 1];
        }
      }
      assert Clicks(p, clicks) == Clicks(q, rest);
      ClicksKeepPageInvariant(q, rest);
    }
  }

  lemma InitialPageInvariant()
    ensures PageInvariant(InitialPage())
  {
  }

  /** Charlie (72000) then Alice (52000): the second click is refused. */
  lemma CharlieThenAliceScenario()
    ensures var p := Clicks(InitialPage(), [2, 0]);
      && p.state.totalCost == 72000
      && p.state.myTeam == [Roster[2]]
      && p.state.showError && p.state.errorMessage == BudgetExceededMessage
      && !p.boxes[0] && p.boxes[2]
  {
    assert [2, 0][1..] == [0] && [0][1..] == [];
  }

  /** Alice (52000) then Diana (48000): both commit, exactly at the ceiling, no banner. */
  lemma AliceThenDianaScenario()
    ensures var p := Clicks(InitialPage(), [0, 3]);
      && p.state.totalCost == 100000
      && p.state.myTeam == [Roster[0], Roster[3]]
      && !p.state.showError
      && p.boxes[0] && p.boxes[3]
  {
    assert [0, 3][1..] == [3] && [3][1..] == [];
  }

  /** The checkbox the change event comes from; the handler writes `checked` back. */
  class Checkbox {
    var checked: bool

    constructor (checked: bool)
      ensures this.checked == checked
    {
      this.checked := checked;
    }
  }

  /** TeamBuilderComponent: the state signals and the handlers that update them. */
  class TeamBuilderComponent {
    const players: seq<Employee>
    var myTeam: seq<Employee>
    var totalCost: int
    var showError: bool
    var errorMessage: string

    function State(): TeamState
      reads this
    {
      TeamState(myTeam, totalCost, showError, errorMessage)
    }

    constructor ()
      ensures players == Roster && State() == Initial
    {
      players := Roster;
      myTeam, totalCost, showError, errorMessage := [], 0, false, "";
    }

    /** `onPlayerToggle`: commit or refuse a check, or remove on uncheck. */
    method OnPlayerToggle(player: Employee, box: Checkbox)
      modifies this, box
      ensures Toggled(State(), box.checked) == Toggle(old(State()), player, old(box.checked))
    {
      var checked := box.checked;
      if checked {
        var newPrice := totalCost + player.salary;
        if newPrice <= Budget {
          totalCost := newPrice;
          myTeam := myTeam + [player];
        } else {
          ShowErrorModal(BudgetExceededMessage);
          box.checked := false;
        }
      } else {
        totalCost := totalCost - player.salary;
        myTeam := WithoutId(myTeam, player.id);
      }
    }

    /** `showErrorModal`: set the message and show the banner. */
    method ShowErrorModal(message: string)
      modifies this
      ensures State() == RaiseError(old(State()), message)
    {
      errorMessage := message;
      showError := true;
    }

    /** The callback `showErrorModal` schedules with `setTimeout`, when it fires. */
    method ErrorTimerFired()
      modifies this
      ensures State() == HideError(old(State()))
    {
      showError := false;
    }
  }
}
