/** The linter every save of an agent goes through. */
module AgentLinter {
  import Runs
  import opened Text
  import opened Wrappers

  /** The part of an agent the linter looks at; a candidate being created has no id. */
  datatype Lintable = Lintable(
    id: Option<Runs.AgentId>, name: string, trigger: Option<string>, jql: Option<string>,
    running: Option<string>, success: string, failure: string, enabled: bool)

  datatype Field = TriggerStatus | StatusRunning | StatusSuccess | StatusFailure

  datatype Issue =
    | StatusAbsent(field: Field, value: string)
    | DuplicateTrigger(trigger: string, other: string)
    | StatusCycle(status: string, other: string)

  /** Absent and blank queries are the same. */
  function NormalizeJql(jql: Option<string>): Option<string> {
    var v := Trim(if jql.Some? then jql.value else "");
    if v == "" then None else Some(v)
  }

  function StatusOf(a: Lintable, f: Field): Option<string> {
    match f
    case TriggerStatus => a.trigger
    case StatusRunning => a.running
    case StatusSuccess => Some(a.success)
    case StatusFailure => Some(a.failure)
  }

  predicate Named(status: Option<string>) {
    status.Some? && status.value != ""
  }

  /** A named status the board does not have. */
  predicate Missing(a: Lintable, f: Field, board: set<string>) {
    Named(StatusOf(a, f)) && StatusOf(a, f).value !in board
  }

  predicate StatusesKnown(a: Lintable, board: set<string>) {
    forall f: Field :: !Missing(a, f, board)
  }

  /** Two agents that would both react to the same tickets. */
  predicate SameTrigger(a: Lintable, b: Lintable) {
    Named(a.trigger) && a.trigger == b.trigger && NormalizeJql(a.jql) == NormalizeJql(b.jql)
  }

  /** An enabled agent other than the one being edited. */
  predicate IsOther(candidate: Lintable, a: Lintable) {
    a.enabled && !(candidate.id.Some? && a.id == candidate.id)
  }

  predicate Collides(candidate: Lintable, a: Lintable) {
    IsOther(candidate, a) && SameTrigger(candidate, a)
  }

  predicate Cycles(candidate: Lintable, a: Lintable) {
    IsOther(candidate, a) && Named(candidate.trigger) && a.trigger == Some(candidate.success) && a.success == candidate.trigger.value
  }

  /** What a save needs: all statuses on the board and no other enabled agent with the same trigger. */
  predicate Acceptable(candidate: Lintable, agents: seq<Lintable>, board: set<string>) {
    StatusesKnown(candidate, board) && forall i | 0 <= i < |agents| :: !Collides(candidate, agents[i])
  }

  /** Two queries are the same when they agree trimmed, an absent one being blank. */
  lemma SameQueryIff(p: Option<string>, q: Option<string>)
    ensures NormalizeJql(p) == NormalizeJql(q)
            <==> Trim(if p.Some? then p.value else "") == Trim(if q.Some? then q.value else "")
  {
  }

  /** What a save needs, column by column. */
  lemma AcceptableMeans(c: Lintable, agents: seq<Lintable>, board: set<string>)
    ensures Acceptable(c, agents, board) <==>
            && c.success in board + {""} && c.failure in board + {""}
            && (c.trigger.Some? ==> c.trigger.value in board + {""}) && (c.running.Some? ==> c.running.value in board + {""})
            && forall a | a in agents && a.enabled && (c.id == None || a.id != c.id) ::
                 c.trigger == None || c.trigger == Some("") || a.trigger != c.trigger
                 || Trim(if a.jql.Some? then a.jql.value else "") != Trim(if c.jql.Some? then c.jql.value else "")
  {
    assert StatusesKnown(c, board) <==>
      !Missing(c, TriggerStatus, board) && !Missing(c, StatusRunning, board) && !Missing(c, StatusSuccess, board) && !Missing(c, StatusFailure, board)
    by {
      if f: Field :| Missing(c, f, board) {
        assert f in [TriggerStatus, StatusRunning, StatusSuccess, StatusFailure];
      }
    }
    assert (forall i | 0 <= i < |agents| :: !Collides(c, agents[i])) <==> forall a | a in agents :: !Collides(c, a);
  }

  const FIELDS: seq<Field> := [TriggerStatus, StatusRunning, StatusSuccess, StatusFailure]

  method AbsentStatuses(candidate: Lintable, board: set<string>) returns (errors: seq<Issue>)
    ensures forall e | e in errors :: e.StatusAbsent? && Missing(candidate, e.field, board) && StatusOf(candidate, e.field) == Some(e.value)
    ensures forall f: Field | Missing(candidate, f, board) :: StatusAbsent(f, StatusOf(candidate, f).value) in errors
  {
    errors := [];
    var i := 0;
    while i < |FIELDS|
      invariant 0 <= i <= |FIELDS|
      invariant forall e | e in errors :: e.StatusAbsent? && Missing(candidate, e.field, board) && StatusOf(candidate, e.field) == Some(e.value)
      invariant forall k | 0 <= k < i && Missing(candidate, FIELDS[k], board) ::
                  StatusAbsent(FIELDS[k], StatusOf(candidate, FIELDS[k]).value) in errors
    {
      var name := StatusOf(candidate, FIELDS[i]);
      if name.Some? && name.value != "" && name.value !in board {
        errors := errors + [StatusAbsent(FIELDS[i], name.value)];
      }
      i := i + 1;
    }
    forall f: Field | Missing(candidate, f, board)
      ensures StatusAbsent(f, StatusOf(candidate, f).value) in errors
    {
      assert f == FIELDS[match f case TriggerStatus => 0 case StatusRunning => 1 case StatusSuccess => 2 case StatusFailure => 3];
    }
  }

  /** Errors block a save exactly when it is not acceptable, and name what is wrong; a status cycle is only warned of. */
  method LintAgent(candidate: Lintable, agents: seq<Lintable>, board: set<string>) returns (errors: seq<Issue>, warnings: seq<Issue>)
    ensures errors == [] <==> Acceptable(candidate, agents, board)
    ensures forall e | e in errors && e.StatusAbsent? :: Missing(candidate, e.field, board) && StatusOf(candidate, e.field) == Some(e.value)
    ensures forall f: Field | Missing(candidate, f, board) :: StatusAbsent(f, StatusOf(candidate, f).value) in errors
    ensures forall e | e in errors && e.DuplicateTrigger? ::
              candidate.trigger == Some(e.trigger) && exists a :: a in agents && Collides(candidate, a) && a.name == e.other
    ensures warnings == [] <==> forall a | a in agents :: !Cycles(candidate, a)
    ensures warnings != [] <==>
              exists a :: && a in agents && a.enabled && (candidate.id == None || a.id != candidate.id)
                          && candidate.trigger.Some? && candidate.trigger.value != ""
                          && a.trigger == Some(candidate.success) && candidate.trigger == Some(a.success)
  {
    warnings := [];
    errors := AbsentStatuses(candidate, board);
    var collision: Option<Lintable> := None;
    var cycle: Option<Lintable> := None;
    var i := 0;
    while i < |agents|
      invariant 0 <= i <= |agents|
      invariant collision.None? <==> forall k | 0 <= k < i :: !Collides(candidate, agents[k])
      invariant collision.Some? ==> collision.value in agents && Collides(candidate, collision.value)
      invariant cycle.None? <==> forall k | 0 <= k < i :: !Cycles(candidate, agents[k])
    {
      var a := agents[i];
      if a.enabled && !(candidate.id.Some? && a.id == candidate.id) && Named(candidate.trigger) {
        if collision.None? && a.trigger == candidate.trigger && NormalizeJql(a.jql) == NormalizeJql(candidate.jql) {
          collision := Some(a);
        }
        if cycle.None? && a.trigger == Some(candidate.success) && a.success == candidate.trigger.value {
          cycle := Some(a);
        }
      }
      i := i + 1;
    }
    ghost var absent := errors;
    assert absent == [] ==> StatusesKnown(candidate, board);
    assert absent != [] ==> absent[0] in absent;
    if collision.Some? {
      errors := errors + [DuplicateTrigger(candidate.trigger.value, collision.value.name)];
      assert errors[|absent|].DuplicateTrigger?;
    }
    assert forall e | e in errors :: e in absent || (collision.Some? && e == DuplicateTrigger(candidate.trigger.value, collision.value.name));
    if cycle.Some? {
      warnings := [StatusCycle(candidate.success, cycle.value.name)];
    }
  }
}
