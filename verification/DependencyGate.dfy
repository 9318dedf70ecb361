/** The dependency gate: which of an issue's links hold its ticket back. */
module DependencyGate {
  import opened Text
  import opened Wrappers

  /** The linked issue as the search returns it. */
  datatype Linked = Linked(key: Key, status: string, category: string)

  datatype Link = Link(inward: string, inwardIssue: Option<Linked>)

  datatype Issue = Issue(key: Key, links: seq<Link>, priority: Option<int>)

  function Normalize(s: string): string {
    Lower(Trim(s))
  }

  predicate IsBlockedByLink(l: Link) {
    l.inwardIssue.Some? && Lower(l.inward) == "is blocked by"
  }

  /** The configured release status, if it can match anything. */
  predicate Matches(release: Option<string>, status: string) {
    release.Some? && |Normalize(release.value)| > 0 && Normalize(status) == Normalize(release.value)
  }

  /** The link gates: blocked-by, blocker not done and not at the release status. */
  predicate Gates(release: Option<string>, l: Link) {
    && IsBlockedByLink(l)
    && l.inwardIssue.value.category != "done"
    && !Matches(release, l.inwardIssue.value.status)
  }

  function KeysWhere(links: seq<Link>, keep: Link -> bool): seq<Key>
    requires forall l | l in links && keep(l) :: l.inwardIssue.Some?
  {
    if links == [] then []
    else (if keep(links[0]) then [links[0].inwardIssue.value.key] else []) + KeysWhere(links[1..], keep)
  }

  lemma {:induction false} KeysWhereMember(links: seq<Link>, keep: Link -> bool, k: Key)
    requires forall l | l in links && keep(l) :: l.inwardIssue.Some?
    ensures k in KeysWhere(links, keep) <==> exists l :: l in links && keep(l) && l.inwardIssue.value.key == k
  {
    if links != [] {
      assert forall l :: l in links <==> l == links[0] || l in links[1..];
      KeysWhereMember(links[1..], keep, k);
    }
  }

  /** The open blockers, in link order. */
  function BlockingKeys(issue: Issue, release: Option<string>): seq<Key> {
    KeysWhere(issue.links, l => Gates(release, l))
  }

  predicate Clear(issue: Issue, release: Option<string>) {
    BlockingKeys(issue, release) == []
  }

  /** Every observed blocker, whatever its status. */
  function AllBlockedByKeys(issue: Issue): seq<Key> {
    KeysWhere(issue.links, l => IsBlockedByLink(l))
  }

  /** Blockers that no longer gate only because of the configured status. */
  function EarlyReleaseBlockers(issue: Issue, release: Option<string>): seq<Key> {
    KeysWhere(issue.links, l =>
      IsBlockedByLink(l) && l.inwardIssue.value.category != "done" && Matches(release, l.inwardIssue.value.status))
  }

  lemma {:induction false} EmptyIffNoneKept(links: seq<Link>, keep: Link -> bool)
    requires forall l | l in links && keep(l) :: l.inwardIssue.Some?
    ensures KeysWhere(links, keep) == [] <==> forall l | l in links :: !keep(l)
  {
    if links != [] {
      EmptyIffNoneKept(links[1..], keep);
      assert forall l :: l in links <==> l == links[0] || l in links[1..];
    }
  }

  /**
   * Clear means: every linked issue that blocks this one is done or is at the release status, the names compared
   * trimmed and without case, and a blank release status matching nothing.
   */
  lemma ClearMeaning(issue: Issue, release: Option<string>)
    ensures Clear(issue, release) <==>
            forall l | l in issue.links && l.inwardIssue.Some? && Lower(l.inward) == "is blocked by" ::
              || l.inwardIssue.value.category == "done"
              || (release.Some? && Lower(Trim(release.value)) != ""
                  && Lower(Trim(l.inwardIssue.value.status)) == Lower(Trim(release.value)))
  {
    EmptyIffNoneKept(issue.links, l => Gates(release, l));
    forall l | l in issue.links
      ensures !Gates(release, l) <==>
              (l.inwardIssue.Some? && Lower(l.inward) == "is blocked by" ==>
                 || l.inwardIssue.value.category == "done"
                 || (release.Some? && Lower(Trim(release.value)) != ""
                     && Lower(Trim(l.inwardIssue.value.status)) == Lower(Trim(release.value))))
    {
    }
  }

  /** The keys are listed link by link, so their order is the order of the links. */
  lemma {:induction false} KeysFollowTheLinks(links: seq<Link>, last: Link, keep: Link -> bool)
    requires forall l | (l in links || l == last) && keep(l) :: l.inwardIssue.Some?
    ensures KeysWhere(links + [last], keep) ==
            if keep(last) then KeysWhere(links, keep) + [last.inwardIssue.value.key] else KeysWhere(links, keep)
  {
    var more := links + [last];
    assert forall l :: l in more <==> l in links || l == last;
    if links == [] {
      assert more[1..] == [];
    } else {
      assert more[1..] == links[1..] + [last] && more[0] == links[0];
      KeysFollowTheLinks(links[1..], last, keep);
    }
  }

  /** The observed blockers are those of every blocked-by link; the open ones those of the links that hold the ticket back. */
  lemma BlockersMean(issue: Issue, release: Option<string>, k: Key)
    ensures k in AllBlockedByKeys(issue) <==>
            exists l :: l in issue.links && l.inwardIssue.Some? && Lower(l.inward) == "is blocked by" && l.inwardIssue.value.key == k
    ensures k in BlockingKeys(issue, release) <==>
            exists l ::
              && l in issue.links && l.inwardIssue.Some? && Lower(l.inward) == "is blocked by" && l.inwardIssue.value.key == k
              && l.inwardIssue.value.category != "done"
              && !(release.Some? && Lower(Trim(release.value)) != ""
                   && Lower(Trim(l.inwardIssue.value.status)) == Lower(Trim(release.value)))
  {
    KeysWhereMember(issue.links, l => Gates(release, l), k);
    KeysWhereMember(issue.links, l => IsBlockedByLink(l), k);
    assert forall l :: IsBlockedByLink(l) <==> l.inwardIssue.Some? && Lower(l.inward) == "is blocked by";
    assert forall l :: Gates(release, l) <==>
        && l.inwardIssue.Some? && Lower(l.inward) == "is blocked by" && l.inwardIssue.value.category != "done"
        && !(release.Some? && Lower(Trim(release.value)) != ""
             && Lower(Trim(l.inwardIssue.value.status)) == Lower(Trim(release.value)));
  }

  /** What gates is always among what is observed, so a blocked ticket never has an empty cache. */
  lemma OpenBlockersAreObserved(issue: Issue, release: Option<string>)
    ensures forall k | k in BlockingKeys(issue, release) :: k in AllBlockedByKeys(issue)
    ensures !Clear(issue, release) ==> AllBlockedByKeys(issue) != []
  {
    var open := BlockingKeys(issue, release);
    forall k | k in open
      ensures k in AllBlockedByKeys(issue)
    {
      KeysWhereMember(issue.links, l => Gates(release, l), k);
      KeysWhereMember(issue.links, l => IsBlockedByLink(l), k);
      var l :| l in issue.links && Gates(release, l) && l.inwardIssue.value.key == k;
      assert IsBlockedByLink(l);
    }
    if open != [] {
      assert open[0] in AllBlockedByKeys(issue);
    }
  }

  /**
   * A configured status only ever opens the gate further, and the early-release note is written
   * for exactly the released tickets that the plain done rule would still hold.
   */
  lemma EarlyReleaseIsExact(issue: Issue, release: Option<string>)
    ensures Clear(issue, None) ==> Clear(issue, release)
    ensures Clear(issue, release) ==> (EarlyReleaseBlockers(issue, release) != [] <==> !Clear(issue, None))
  {
    ClearMeaning(issue, None);
    ClearMeaning(issue, release);
    EmptyIffNoneKept(issue.links, l =>
      IsBlockedByLink(l) && l.inwardIssue.value.category != "done" && Matches(release, l.inwardIssue.value.status));
  }

  /** A status that normalizes to nothing is no status. */
  lemma BlankReleaseStatusIsAbsent(issue: Issue, release: string)
    requires Normalize(release) == []
    ensures Clear(issue, Some(release)) <==> Clear(issue, None)
  {
    ClearMeaning(issue, None);
    ClearMeaning(issue, Some(release));
  }
}
