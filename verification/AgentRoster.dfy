/**
 * The roster of agents under creation, editing, deletion and accepted team proposals, each as one
 * step: no two enabled agents of a workspace react to the same tickets.
 */
module AgentRoster {
  import opened AgentKey
  import opened AgentLinter
  import Runs
  import opened Wrappers

  datatype Agent = Agent(
    id: Runs.AgentId, workspace: Runs.WorkspaceId, name: string, role: Option<string>, trigger: Option<string>, jql: Option<string>,
    running: Option<string>, success: string, failure: string, enabled: bool, orchestrator: bool)

  /** A validated save request. */
  datatype Request = Request(
    workspace: Runs.WorkspaceId, name: string, role: Option<string>, trigger: string, jql: Option<string>,
    running: Option<string>, success: string, failure: string, enabled: Option<bool>)

  /** One agent of a proposed team. */
  datatype Proposal = Proposal(
    name: string, role: Option<string>, trigger: string, running: Option<string>, success: string, failure: string, executor: string)

  datatype Op =
    | Create(id: Runs.AgentId, req: Request, board: set<string>)
    | Update(id: Runs.AgentId, req: Request, board: set<string>)
    | Remove(id: Runs.AgentId, hasRuns: bool)
    | AcceptTeam(ids: seq<Runs.AgentId>, workspace: Runs.WorkspaceId, proposed: seq<Proposal>, board: set<string>, executors: map<string, bool>)

  function AsLintable(a: Agent): Lintable {
    Lintable(Some(a.id), a.name, a.trigger, a.jql, a.running, a.success, a.failure, a.enabled)
  }

  function OfWorkspace(rows: seq<Agent>, w: Runs.WorkspaceId): seq<Lintable> {
    if rows == [] then []
    else (if rows[0].workspace == w then [AsLintable(rows[0])] else []) + OfWorkspace(rows[1..], w)
  }

  /** A save is linted as if enabled, whatever the request says. */
  function Candidate(req: Request, editing: Option<Runs.AgentId>): Lintable {
    Lintable(editing, req.name, Some(req.trigger), req.jql, req.running, req.success, req.failure, true)
  }

  function ProposedAgent(p: Proposal): Lintable {
    Lintable(None, p.name, Some(p.trigger), None, p.running, p.success, p.failure, true)
  }

  function Prior(proposed: seq<Proposal>, n: nat): (agents: seq<Lintable>)
    requires n <= |proposed|
    ensures |agents| == n
    ensures forall i | 0 <= i < n ::
              var p := proposed[i]; agents[i] == Lintable(None, p.name, Some(p.trigger), None, p.running, p.success, p.failure, true)
  {
    seq(n, i requires 0 <= i < n => ProposedAgent(proposed[i]))
  }

  /** The index of a row, or the number of rows. */
  function Find(rows: seq<Agent>, id: Runs.AgentId): (i: nat)
    ensures i <= |rows| && (forall k | 0 <= k < i :: rows[k].id != id) && (i < |rows| ==> rows[i].id == id)
  {
    if rows == [] || rows[0].id == id then 0 else 1 + Find(rows[1..], id)
  }

  /** The linter sees the rows of its workspace, all of them and no others. */
  lemma {:induction false} LintedAreTheWorkspaces(rows: seq<Agent>, w: Runs.WorkspaceId, l: Lintable)
    ensures l in OfWorkspace(rows, w) <==>
            exists a :: a in rows && a.workspace == w
                        && l == Lintable(Some(a.id), a.name, a.trigger, a.jql, a.running, a.success, a.failure, a.enabled)
  {
    if rows != [] {
      LintedAreTheWorkspaces(rows[1..], w, l);
      assert forall a :: a in rows <==> a == rows[0] || a in rows[1..];
    }
  }

  // ---------- the operations as transitions ----------

  function NewAgent(id: Runs.AgentId, req: Request): Agent {
    Agent(id, req.workspace, req.name, req.role, Some(req.trigger), req.jql, req.running, req.success, req.failure, true, false)
  }

  /** An edit never moves an agent to another workspace; of the orchestrator it reaches none of these fields but `enabled`. */
  function Edited(a: Agent, req: Request): Agent {
    var enabled := if req.enabled.Some? then req.enabled.value else a.enabled;
    if a.orchestrator then a.(enabled := enabled)
    else a.(name := req.name, role := req.role, trigger := Some(req.trigger), jql := req.jql, running := req.running,
            success := req.success, failure := req.failure, enabled := enabled)
  }

  function TeamAgent(id: Runs.AgentId, workspace: Runs.WorkspaceId, p: Proposal): Agent {
    Agent(id, workspace, p.name, p.role, Some(p.trigger), None, p.running, p.success, p.failure, true, false)
  }

  function TeamRows(ids: seq<Runs.AgentId>, workspace: Runs.WorkspaceId, proposed: seq<Proposal>): (rows: seq<Agent>)
    requires |ids| == |proposed|
    ensures |rows| == |proposed|
    ensures forall i | 0 <= i < |rows| ::
              var p := proposed[i];
              rows[i] == Agent(ids[i], workspace, p.name, p.role, Some(p.trigger), None, p.running, p.success, p.failure, true, false)
  {
    seq(|proposed|, i requires 0 <= i < |proposed| => TeamAgent(ids[i], workspace, proposed[i]))
  }

  function KeyOf(p: Proposal): string {
    SlugifyAgentKey(p.name, p.role)
  }

  function KeysBefore(proposed: seq<Proposal>, n: nat): set<string>
    requires n <= |proposed|
  {
    set j | 0 <= j < n :: KeyOf(proposed[j])
  }

  /** The n-th proposal has a key of its own, a usable executor and passes the linter beside the earlier ones. */
  predicate ProposalAcceptable(
    proposed: seq<Proposal>, n: nat, existing: seq<Lintable>, board: set<string>, executors: map<string, bool>)
    requires n < |proposed|
  {
    && KeyOf(proposed[n]) !in KeysBefore(proposed, n)
    && proposed[n].executor in executors && executors[proposed[n].executor]
    && Acceptable(ProposedAgent(proposed[n]), existing + Prior(proposed, n), board)
  }

  /** A team is accepted as a whole or not at all. */
  predicate TeamAcceptable(proposed: seq<Proposal>, existing: seq<Lintable>, board: set<string>, executors: map<string, bool>) {
    forall n | 0 <= n < |proposed| :: ProposalAcceptable(proposed, n, existing, board, executors)
  }

  predicate NewIds(rows: seq<Agent>, ids: seq<Runs.AgentId>) {
    && (forall i | 0 <= i < |ids| :: Find(rows, ids[i]) == |rows|)
    && (forall i, j | 0 <= i < j < |ids| :: ids[i] != ids[j])
  }

  function Apply(rows: seq<Agent>, op: Op): seq<Agent> {
    match op
    case Create(id, req, board) =>
      if NewIds(rows, [id]) && Acceptable(Candidate(req, None), OfWorkspace(rows, req.workspace), board) then rows + [NewAgent(id, req)]
      else rows
    case Update(id, req, board) =>
      var i := Find(rows, id);
      if i < |rows| && (rows[i].orchestrator || Acceptable(Candidate(req, Some(id)), OfWorkspace(rows, req.workspace), board))
      then rows[i := Edited(rows[i], req)]
      else rows
    case Remove(id, hasRuns) =>
      var i := Find(rows, id);
      if i == |rows| || rows[i].orchestrator then rows
      else if hasRuns then rows[i := rows[i].(enabled := false)]
      else rows[..i] + rows[i + 1..]
    case AcceptTeam(ids, workspace, proposed, board, executors) =>
      if |ids| == |proposed| && NewIds(rows, ids) && TeamAcceptable(proposed, OfWorkspace(rows, workspace), board, executors)
      then rows + TeamRows(ids, workspace, proposed)
      else rows
  }

  function ApplyAll(rows: seq<Agent>, ops: seq<Op>): seq<Agent>
    decreases |ops|
  {
    if ops == [] then rows else ApplyAll(Apply(rows, ops[0]), ops[1..])
  }

  /** A team is acceptable when every proposal has a key of its own, an executor that is enabled, and passes the linter beside the earlier ones. */
  lemma TeamAcceptableMeans(proposed: seq<Proposal>, existing: seq<Lintable>, board: set<string>, executors: map<string, bool>)
    ensures TeamAcceptable(proposed, existing, board, executors) <==>
            && (forall i, j | 0 <= i < j < |proposed| ::
                  SlugifyAgentKey(proposed[i].name, proposed[i].role) != SlugifyAgentKey(proposed[j].name, proposed[j].role))
            && (forall p | p in proposed :: p.executor in executors && executors[p.executor])
            && forall n | 0 <= n < |proposed| ::
                 var p := proposed[n];
                 Acceptable(
                   Lintable(None, p.name, Some(p.trigger), None, p.running, p.success, p.failure, true), existing + Prior(proposed, n), board)
  {
    if TeamAcceptable(proposed, existing, board, executors) {
      forall i, j | 0 <= i < j < |proposed|
        ensures KeyOf(proposed[i]) != KeyOf(proposed[j])
      {
        assert ProposalAcceptable(proposed, j, existing, board, executors);
        assert KeyOf(proposed[i]) in KeysBefore(proposed, j);
      }
      forall n | 0 <= n < |proposed|
        ensures proposed[n].executor in executors && executors[proposed[n].executor]
        ensures Acceptable(ProposedAgent(proposed[n]), existing + Prior(proposed, n), board)
      {
        assert ProposalAcceptable(proposed, n, existing, board, executors);
      }
    }
  }

  // ---------- the invariant ----------

  /** Two enabled agents of one workspace reacting to the same tickets. */
  predicate Clash(a: Agent, b: Agent) {
    a.workspace == b.workspace && a.enabled && b.enabled && SameTrigger(AsLintable(a), AsLintable(b))
  }

  predicate NoClash(rows: seq<Agent>) {
    forall i, j | 0 <= i < j < |rows| :: !Clash(rows[i], rows[j])
  }

  predicate Consistent(rows: seq<Agent>) {
    && NoClash(rows)
    && (forall i, j | 0 <= i < j < |rows| :: rows[i].id != rows[j].id)
    && (forall i | 0 <= i < |rows| :: rows[i].orchestrator ==> rows[i].trigger.None?)
  }

  lemma ClashIsSymmetric(a: Agent, b: Agent)
    ensures Clash(a, b) <==> Clash(b, a)
  {
  }

  lemma {:induction false} WorkspaceRowIsLinted(rows: seq<Agent>, w: Runs.WorkspaceId, i: nat)
    requires i < |rows| && rows[i].workspace == w
    ensures AsLintable(rows[i]) in OfWorkspace(rows, w)
  {
    if i > 0 {
      WorkspaceRowIsLinted(rows[1..], w, i - 1);
    }
  }

  /** An acceptable candidate clashes with none of the linted rows. */
  lemma AcceptableClashesWithNone(rows: seq<Agent>, w: Runs.WorkspaceId, candidate: Lintable, more: seq<Lintable>, board: set<string>, i: nat)
    requires Acceptable(candidate, OfWorkspace(rows, w) + more, board) && i < |rows|
    requires rows[i].workspace == w && rows[i].enabled && candidate.id != Some(rows[i].id)
    ensures !SameTrigger(candidate, AsLintable(rows[i])) && !SameTrigger(AsLintable(rows[i]), candidate)
  {
    WorkspaceRowIsLinted(rows, w, i);
    var linted := OfWorkspace(rows, w);
    var k :| 0 <= k < |linted| && linted[k] == AsLintable(rows[i]);
    assert (linted + more)[k] == linted[k];
    assert !Collides(candidate, (linted + more)[k]);
  }

  lemma CreateKeepsConsistent(rows: seq<Agent>, id: Runs.AgentId, req: Request, board: set<string>)
    requires Consistent(rows)
    ensures Consistent(Apply(rows, Create(id, req, board)))
  {
    var linted := OfWorkspace(rows, req.workspace);
    if NewIds(rows, [id]) && Acceptable(Candidate(req, None), linted, board) {
      var added := NewAgent(id, req);
      assert linted + [] == linted;
      forall i | 0 <= i < |rows|
        ensures !Clash(rows[i], added)
      {
        if rows[i].workspace == req.workspace && rows[i].enabled {
          AcceptableClashesWithNone(rows, req.workspace, Candidate(req, None), [], board, i);
        }
      }
      assert Find(rows, [id][0]) == |rows|;
    }
  }

  lemma UpdateKeepsConsistent(rows: seq<Agent>, id: Runs.AgentId, req: Request, board: set<string>)
    requires Consistent(rows)
    requires Find(rows, id) < |rows| ==> rows[Find(rows, id)].workspace == req.workspace
    ensures Consistent(Apply(rows, Update(id, req, board)))
  {
    var i := Find(rows, id);
    var linted := OfWorkspace(rows, req.workspace);
    if i < |rows| && (rows[i].orchestrator || Acceptable(Candidate(req, Some(id)), linted, board)) {
      var edited := Edited(rows[i], req);
      assert linted + [] == linted;
      forall j | 0 <= j < |rows| && j != i
        ensures !Clash(rows[j], edited) && !Clash(edited, rows[j])
      {
        if !edited.orchestrator && rows[j].workspace == req.workspace && rows[j].enabled {
          AcceptableClashesWithNone(rows, req.workspace, Candidate(req, Some(id)), [], board, j);
        }
        ClashIsSymmetric(rows[j], edited);
      }
    }
  }

  lemma DeletingKeepsConsistent(rows: seq<Agent>, i: nat)
    requires Consistent(rows) && i < |rows|
    ensures Consistent(rows[..i] + rows[i + 1..])
  {
    var left := rows[..i] + rows[i + 1..];
    forall j, k | 0 <= j < k < |left|
      ensures !Clash(left[j], left[k]) && left[j].id != left[k].id
    {
      var j', k' := if j < i then j else j + 1, if k < i then k else k + 1;
      assert left[j] == rows[j'] && left[k] == rows[k'];
      assert !Clash(rows[j'], rows[k']);
    }
  }

  lemma DisablingKeepsConsistent(rows: seq<Agent>, i: nat)
    requires Consistent(rows) && i < |rows|
    ensures Consistent(rows[i := rows[i].(enabled := false)])
  {
    var after := rows[i := rows[i].(enabled := false)];
    forall j, k | 0 <= j < k < |after|
      ensures !Clash(after[j], after[k]) && after[j].id != after[k].id
    {
      assert !Clash(rows[j], rows[k]);
    }
  }

  lemma RemoveKeepsConsistent(rows: seq<Agent>, id: Runs.AgentId, hasRuns: bool)
    requires Consistent(rows)
    ensures Consistent(Apply(rows, Remove(id, hasRuns)))
  {
    var i := Find(rows, id);
    if i < |rows| && !rows[i].orchestrator {
      if hasRuns {
        DisablingKeepsConsistent(rows, i);
      } else {
        DeletingKeepsConsistent(rows, i);
      }
    }
  }

  lemma TeamRowsDoNotClash(
    rows: seq<Agent>, ids: seq<Runs.AgentId>, w: Runs.WorkspaceId, proposed: seq<Proposal>, board: set<string>, executors: map<string, bool>, n: nat)
    requires |ids| == |proposed| && n < |proposed| && TeamAcceptable(proposed, OfWorkspace(rows, w), board, executors)
    ensures forall i | 0 <= i < |rows| :: !Clash(rows[i], TeamRows(ids, w, proposed)[n])
    ensures forall i | 0 <= i < n :: !Clash(TeamRows(ids, w, proposed)[i], TeamRows(ids, w, proposed)[n])
  {
    var candidate := ProposedAgent(proposed[n]);
    var linted, prior := OfWorkspace(rows, w), Prior(proposed, n);
    assert ProposalAcceptable(proposed, n, linted, board, executors);
    forall i | 0 <= i < |rows|
      ensures !Clash(rows[i], TeamRows(ids, w, proposed)[n])
    {
      if rows[i].workspace == w && rows[i].enabled {
        AcceptableClashesWithNone(rows, w, candidate, prior, board, i);
      }
    }
    forall i | 0 <= i < n
      ensures !Clash(TeamRows(ids, w, proposed)[i], TeamRows(ids, w, proposed)[n])
    {
      assert (linted + prior)[|linted| + i] == ProposedAgent(proposed[i]);
      assert !Collides(candidate, (linted + prior)[|linted| + i]);
    }
  }

  lemma TeamKeepsConsistent(
    rows: seq<Agent>, ids: seq<Runs.AgentId>, w: Runs.WorkspaceId, proposed: seq<Proposal>, board: set<string>, executors: map<string, bool>)
    requires Consistent(rows)
    ensures Consistent(Apply(rows, AcceptTeam(ids, w, proposed, board, executors)))
  {
    if |ids| == |proposed| && NewIds(rows, ids) && TeamAcceptable(proposed, OfWorkspace(rows, w), board, executors) {
      var team := TeamRows(ids, w, proposed);
      var all := rows + team;
      forall i, j | 0 <= i < j < |all|
        ensures !Clash(all[i], all[j]) && all[i].id != all[j].id
      {
        if j >= |rows| {
          TeamRowsDoNotClash(rows, ids, w, proposed, board, executors, j - |rows|);
          assert all[j] == team[j - |rows|] && Find(rows, ids[j - |rows|]) == |rows|;
          assert i >= |rows| ==> all[i] == team[i - |rows|];
        }
      }
    }
  }

  /** Every update of the run names the workspace its agent is in. */
  predicate NamesOwnWorkspaces(rows: seq<Agent>, ops: seq<Op>)
    decreases |ops|
  {
    ops == [] || (NamesOwnWorkspace(rows, ops[0]) && NamesOwnWorkspaces(Apply(rows, ops[0]), ops[1..]))
  }

  predicate NamesOwnWorkspace(rows: seq<Agent>, op: Op) {
    op.Update? && Find(rows, op.id) < |rows| ==> rows[Find(rows, op.id)].workspace == op.req.workspace
  }

  /** Over any sequence of operations no two enabled agents of a workspace come to react to the same tickets. */
  lemma {:induction false} TriggersStayDistinct(rows: seq<Agent>, ops: seq<Op>)
    requires Consistent(rows) && NamesOwnWorkspaces(rows, ops)
    ensures Consistent(ApplyAll(rows, ops))
    decreases |ops|
  {
    if ops != [] {
      match ops[0] {
        case Create(id, req, board) => CreateKeepsConsistent(rows, id, req, board);
        case Update(id, req, board) => UpdateKeepsConsistent(rows, id, req, board);
        case Remove(id, hasRuns) => RemoveKeepsConsistent(rows, id, hasRuns);
        case AcceptTeam(ids, w, proposed, board, executors) => TeamKeepsConsistent(rows, ids, w, proposed, board, executors);
      }
      TriggersStayDistinct(Apply(rows, ops[0]), ops[1..]);
    }
  }

  /** Every update of an agent of `own` by a request naming `named` keeps the roster consistent. */
  ghost predicate UpdatesAreSafe(own: Runs.WorkspaceId, named: Runs.WorkspaceId) {
    forall rows: seq<Agent>, id: Runs.AgentId, req: Request, board: set<string> ::
      Consistent(rows) && Find(rows, id) < |rows| && rows[Find(rows, id)].workspace == own && req.workspace == named
      ==> Consistent(Apply(rows, Update(id, req, board)))
  }

  /** An update is linted against the workspace it names, so it is safe exactly when that is the agent's own. */
  lemma UpdatesAreSafeIffTheyNameTheOwnWorkspace(own: Runs.WorkspaceId, named: Runs.WorkspaceId)
    ensures UpdatesAreSafe(own, named) <==> own == named
  {
    if own == named {
      forall rows: seq<Agent>, id: Runs.AgentId, req: Request, board: set<string> |
        Consistent(rows) && Find(rows, id) < |rows| && rows[Find(rows, id)].workspace == own && req.workspace == named
        ensures Consistent(Apply(rows, Update(id, req, board)))
      {
        UpdateKeepsConsistent(rows, id, req, board);
      }
    } else {
      var first := Agent(0, own, "a", None, Some("Ready"), None, None, "Done", "Failed", true, false);
      var second := first.(id := 1, trigger := Some("Review"));
      var req := Request(named, "a", None, "Ready", None, None, "Done", "Failed", None);
      var rows, board := [first, second], {"Ready", "Review", "Done", "Failed"};
      assert Consistent(rows);
      assert rows[1..] == [second] && OfWorkspace([second], named) == [];
      assert Find(rows, 1) == 1;
      var after := Apply(rows, Update(1, req, board));
      assert Acceptable(Candidate(req, Some(1)), [], board);
      assert after == rows[1 := Edited(second, req)];
      assert Clash(after[0], after[1]);
    }
  }

  // ---------- the controllers ----------

  class Roster {
    var rows: seq<Agent>

    method Create(id: Runs.AgentId, req: Request, board: set<string>) returns (ok: bool)
      requires NewIds(rows, [id])
      modifies this
      ensures rows == Apply(old(rows), Op.Create(id, req, board)) && ok == (rows != old(rows))
      ensures ok <==>
        Acceptable(
          Lintable(None, req.name, Some(req.trigger), req.jql, req.running, req.success, req.failure, true),
          OfWorkspace(old(rows), req.workspace), board)
      ensures ok ==>
        rows == old(rows) +
          [Agent(id, req.workspace, req.name, req.role, Some(req.trigger), req.jql, req.running, req.success, req.failure, true, false)]
    {
      var existing := Select(req.workspace);
      var errors, warnings := LintAgent(Candidate(req, None), existing, board);
      ok := errors == [];
      if ok {
        rows := rows + [NewAgent(id, req)];
      }
    }

    /** The select of a workspace's rows. */
    method Select(w: Runs.WorkspaceId) returns (found: seq<Lintable>)
      ensures found == OfWorkspace(rows, w)
    {
      found := [];
      var i := |rows|;
      assert rows[i..] == [];
      while i > 0
        invariant 0 <= i <= |rows| && found == OfWorkspace(rows[i..], w)
      {
        i := i - 1;
        assert rows[i..][1..] == rows[i + 1..];
        if rows[i].workspace == w {
          found := [AsLintable(rows[i])] + found;
        }
      }
      assert rows[0..] == rows;
    }

    method Update(id: Runs.AgentId, req: Request, board: set<string>) returns (ok: bool)
      modifies this
      ensures rows == Apply(old(rows), Op.Update(id, req, board))
      ensures !ok ==> rows == old(rows)
      ensures var i := Find(old(rows), id);
        && (ok <==>
              && i < |old(rows)|
              && (old(rows)[i].orchestrator
                  || Acceptable(
                       Lintable(Some(id), req.name, Some(req.trigger), req.jql, req.running, req.success, req.failure, true),
                       OfWorkspace(old(rows), req.workspace), board)))
        && (ok ==>
              && var a := old(rows)[i];
              && var enabled := if req.enabled == None then a.enabled else req.enabled.value;
              && rows == old(rows)[i :=
                   if a.orchestrator then a.(enabled := enabled)
                   else Agent(id, a.workspace, req.name, req.role, Some(req.trigger), req.jql, req.running, req.success, req.failure, enabled, false)])
    {
      var i := Find(rows, id);
      if i == |rows| {
        return false;
      }
      var existing := rows[i];
      var enabled := if req.enabled.Some? then req.enabled.value else existing.enabled;
      if existing.orchestrator {
        rows := rows[i := existing.(enabled := enabled)];
        return true;
      }
      var others := Select(req.workspace);
      var errors, warnings := LintAgent(Candidate(req, Some(id)), others, board);
      if errors != [] {
        return false;
      }
      rows := rows[i := existing.(name := req.name, role := req.role, trigger := Some(req.trigger), jql := req.jql,
                                  running := req.running, success := req.success, failure := req.failure, enabled := enabled)];
      ok := true;
    }

    /** Deletes the agent, or disables it when it has runs; refuses the orchestrator. */
    method Remove(id: Runs.AgentId, hasRuns: bool) returns (conflict: bool, softDeleted: bool)
      modifies this
      ensures rows == Apply(old(rows), Op.Remove(id, hasRuns))
      ensures var i := Find(old(rows), id); conflict == (i < |old(rows)| && old(rows)[i].orchestrator)
      ensures var i := Find(old(rows), id);
        && var deletable := i < |old(rows)| && !old(rows)[i].orchestrator;
        && softDeleted == (deletable && hasRuns)
        && rows ==
             if softDeleted then old(rows)[i := old(rows)[i].(enabled := false)]
             else if deletable then old(rows)[..i] + old(rows)[i + 1..]
             else old(rows)
    {
      conflict, softDeleted := false, false;
      var i := Find(rows, id);
      if i < |rows| && rows[i].orchestrator {
        conflict := true;
        return;
      }
      if i == |rows| {
        return;
      }
      if hasRuns {
        rows := rows[i := rows[i].(enabled := false)];
        softDeleted := true;
        return;
      }
      rows := rows[..i] + rows[i + 1..];
    }

    method AcceptTeam(
        ids: seq<Runs.AgentId>, workspace: Runs.WorkspaceId, proposed: seq<Proposal>, board: set<string>, executors: map<string, bool>)
      returns (ok: bool)
      requires |ids| == |proposed| && NewIds(rows, ids)
      modifies this
      ensures rows == Apply(old(rows), Op.AcceptTeam(ids, workspace, proposed, board, executors))
      ensures ok <==> TeamAcceptable(proposed, OfWorkspace(old(rows), workspace), board, executors)
      ensures rows == old(rows) + if ok then TeamRows(ids, workspace, proposed) else []
    {
      var existing := Select(workspace);
      var issues := ValidateTeam(proposed, existing, board, executors);
      ok := issues == 0;
      if ok {
        rows := rows + TeamRows(ids, workspace, proposed);
      }
    }
  }

  /** The issues of one proposal. */
  method ValidateProposal(
      proposed: seq<Proposal>, n: nat, seenKeys: set<string>, existing: seq<Lintable>, board: set<string>, executors: map<string, bool>)
    returns (key: string, issues: nat)
    requires n < |proposed| && seenKeys == KeysBefore(proposed, n)
    ensures key == KeyOf(proposed[n])
    ensures issues == 0 <==> ProposalAcceptable(proposed, n, existing, board, executors)
  {
    var p := proposed[n];
    key, issues := SlugifyAgentKey(p.name, p.role), 0;
    if key in seenKeys {
      issues := issues + 1;
    }
    if p.executor !in executors || !executors[p.executor] {
      issues := issues + 1;
    }
    var errors, warnings := LintAgent(ProposedAgent(p), existing + Prior(proposed, n), board);
    issues := issues + |errors|;
  }

  /** Counts the issues of a proposal: none exactly when the team is acceptable as a whole. */
  method ValidateTeam(proposed: seq<Proposal>, existing: seq<Lintable>, board: set<string>, executors: map<string, bool>)
    returns (issues: nat)
    ensures issues == 0 <==> TeamAcceptable(proposed, existing, board, executors)
  {
    issues := 0;
    var seenKeys: set<string> := {};
    var i := 0;
    while i < |proposed|
      invariant 0 <= i <= |proposed|
      invariant seenKeys == KeysBefore(proposed, i)
      invariant issues == 0 <==> forall n | 0 <= n < i :: ProposalAcceptable(proposed, n, existing, board, executors)
    {
      var key, more := ValidateProposal(proposed, i, seenKeys, existing, board, executors);
      issues := issues + more;
      seenKeys := seenKeys + {key};
      i := i + 1;
    }
  }
}
