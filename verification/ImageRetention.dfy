/** Release image retention (scripts/cd/image-retention.py): which images a deployment keeps, and what its
    cleanup may remove. */
module ImageRetention {
  import opened Outcomes
  import opened Sorting
  import opened Texts

  type Id = string

  datatype Image = Image(id: Id, tags: seq<string>, created: int)

  /** The saved state; a missing file reads as no success and no bootstrap decision. */
  datatype Saved = Saved(successful: seq<Id>, bootstrap: Option<seq<Id>>)

  datatype Plan = Plan(successful: seq<Id>, bootstrap: seq<Id>, keep: set<Id>, candidates: seq<Image>)

  const REGISTRY := "crpi-x3r4i68cpfmwtcll.cn-beijing.personal.cr.aliyuncs.com/fangcunmount/"
  const MIRROR := "ghcr.io/fangcunmount/"
  const KEPT := 3

  // ----- names of images -----

  /** Index of the first c, or the length. */
  function First(s: string, c: char): (i: nat)
    ensures i <= |s| && (i < |s| ==> s[i] == c) && c !in s[..i]
  {
    if s == "" || s[0] == c then 0 else
      assert s[..1 + First(s[1..], c)] == [s[0]] + s[1..][..First(s[1..], c)];
      1 + First(s[1..], c)
  }

  /** Index of the last c, or the length. */
  function Last(s: string, c: char): (i: nat)
    ensures i <= |s| && (i < |s| ==> s[i] == c && c !in s[i + 1..])
  {
    if s == "" then 0
    else if s[|s| - 1] == c then |s| - 1
    else
      var i := Last(s[..|s| - 1], c);
      if i < |s| - 1 then
        assert s[i + 1..] == s[..|s| - 1][i + 1..] + [s[|s| - 1]];
        i
      else |s|
  }

  predicate DigestText(s: string) {
    |s| == 71 && s[..7] == "sha256:" && forall i :: 7 <= i < 71 ==> Digit(s[i]) || 'a' <= s[i] <= 'f'
  }

  /** A digest alias keeps its colon; any other reference loses what follows its last colon. */
  function Repository(tag: string): Checked<string> {
    var at := First(tag, '@');
    if at < |tag| then
      if DigestText(tag[at + 1..]) then Accepted(tag[..at]) else Rejected
    else Accepted(tag[..Last(tag, ':')])
  }

  function Version(tag: string): string {
    var colon := Last(tag, ':');
    if colon < |tag| then tag[colon + 1..] else tag
  }

  predicate RecoveryTag(tag: string) {
    "fallback-" <= Version(tag) || "m6-rollback-" <= Version(tag)
  }

  // ----- selection -----

  /** [x] + the others, most recent first. */
  function MoveToFront(x: Id, list: seq<Id>): seq<Id> {
    [x] + Others(x, list)
  }

  function Others(x: Id, list: seq<Id>): (r: seq<Id>)
    ensures |r| <= |list|
  {
    if list == [] then [] else (if list[0] == x then [] else [list[0]]) + Others(x, list[1..])
  }

  function Take(list: seq<Id>, n: nat): seq<Id> {
    if |list| <= n then list else list[..n]
  }

  predicate AllNamed(images: seq<Image>) {
    forall i, k :: 0 <= i < |images| && 0 <= k < |images[i].tags| ==> Repository(images[i].tags[k]).Accepted?
  }

  /** The image has tags, and all of them are names of this service. */
  predicate InScope(image: Image, allowed: set<string>) {
    image.tags != [] && forall k :: 0 <= k < |image.tags| ==>
      Repository(image.tags[k]).Accepted? && Repository(image.tags[k]).value in allowed
  }

  function Scoped(images: seq<Image>, allowed: set<string>): seq<Image> {
    if images == [] then []
    else (if InScope(images[0], allowed) then [images[0]] else []) + Scoped(images[1..], allowed)
  }

  function Ids(images: seq<Image>): seq<Id> {
    Map(images, (image: Image) => image.id)
  }

  function Allowed(service: string, own: string): set<string> {
    {own, REGISTRY + service, MIRROR + service} + (if service == "qs-ai" then {"qs-ai"} else {})
  }

  function NewestFirst(): (Image, Image) -> bool {
    (a: Image, b: Image) => a.created >= b.created
  }

  /** The first occurrences, in order. */
  function Deduplicated(list: seq<Id>): seq<Id> {
    if list == [] then []
    else
      var init, last := Deduplicated(list[..|list| - 1]), list[|list| - 1];
      if last in init then init else init + [last]
  }

  function Present(list: seq<Id>, ids: seq<Id>): seq<Id> {
    if list == [] then [] else (if list[0] in ids then [list[0]] else []) + Present(list[1..], ids)
  }

  /** The bootstrap protection decided by the first deployment ever recorded. */
  function FirstBootstrap(scoped: seq<Image>, previous: seq<Id>): seq<Id> {
    Deduplicated(Take(Ids(Sort(scoped, NewestFirst())), KEPT) + Present(previous, Ids(scoped)))
  }

  function Recovery(scoped: seq<Image>): set<Id> {
    set image, tag | image in scoped && tag in image.tags && RecoveryTag(tag) :: image.id
  }

  /** An image of this service that an operator holds under a recovery tag. */
  predicate RecoveryTagged(images: seq<Image>, service: string, ref: string, id: Id) {
    var own := Repository(ref);
    own.Accepted? && exists image :: image in Scoped(images, Allowed(service, own.value)) && image.id == id
                                     && exists tag :: tag in image.tags && RecoveryTag(tag)
  }

  lemma RecoveryTaggedIsRecovery(images: seq<Image>, service: string, ref: string, id: Id)
    requires Repository(ref).Accepted?
    ensures RecoveryTagged(images, service, ref, id)
            <==> id in Recovery(Scoped(images, Allowed(service, Repository(ref).value)))
  {
    hide Repository, Scoped, Allowed, RecoveryTag;
  }

  /** Why an image must not be removed. */
  predicate Protected(id: Id, history: seq<Id>, bootstrap: seq<Id>, refs: set<Id>, scoped: seq<Image>, previous: seq<Id>) {
    id in history || id in bootstrap || id in refs || id in Recovery(scoped) || id in previous
  }

  function Unkept(scoped: seq<Image>, keep: set<Id>): (r: seq<Image>)
    ensures forall image :: image in r <==> image in scoped && image.id !in keep
  {
    if scoped == [] then []
    else (if scoped[0].id in keep then [] else [scoped[0]]) + Unkept(scoped[1..], keep)
  }

  function Select(images: seq<Image>, refs: set<Id>, service: string, id: Id, ref: string, saved: Saved,
                  previous: seq<Id>): (r: Checked<Plan>)
    ensures r.Accepted? ==>
      var p, own := r.value, Repository(ref);
      && own.Accepted?
      && var scoped := Scoped(images, Allowed(service, own.value));
      && p.successful == Take(MoveToFront(id, saved.successful), KEPT)
      && (forall x :: x in p.keep <==> Protected(x, p.successful, p.bootstrap, refs, scoped, previous))
      && (forall image :: image in p.candidates <==> image in scoped && image.id !in p.keep)
  {
    var own := Repository(ref);
    if own.Rejected? || !AllNamed(images) then Rejected
    else
      var scoped := Scoped(images, Allowed(service, own.value));
      if id !in Ids(scoped) then Rejected
      else
        var history := Take(MoveToFront(id, saved.successful), KEPT);
        var decided := if saved.bootstrap.None? then FirstBootstrap(scoped, previous) else saved.bootstrap.value;
        var bootstrap := if |history| >= KEPT then [] else decided;
        var keep := (set x | x in history) + (set x | x in bootstrap) + refs + Recovery(scoped) + (set x | x in previous);
        Accepted(Plan(history, bootstrap, keep, Unkept(scoped, keep)))
  }

  // ----- the first bootstrap decision -----

  lemma NewestIsAnOrder()
    ensures Ordering(NewestFirst())
  {
  }

  lemma {:induction false} DeduplicatedIsDistinct(list: seq<Id>)
    ensures forall x :: x in Deduplicated(list) <==> x in list
    ensures Distinct(Deduplicated(list))
  {
    if list != [] {
      var init, last := list[..|list| - 1], list[|list| - 1];
      assert list == init + [last];
      DeduplicatedIsDistinct(init);
    }
  }

  lemma {:induction false} PresentAreThose(list: seq<Id>, ids: seq<Id>)
    ensures forall x :: x in Present(list, ids) <==> x in list && x in ids
  {
    if list != [] {
      assert list == [list[0]] + list[1..];
      PresentAreThose(list[1..], ids);
    }
  }

  /** These are as many images as are kept, and none of the others is newer. */
  ghost predicate Newest(newest: seq<Image>, all: seq<Image>) {
    && |newest| == (if |all| <= KEPT then |all| else KEPT)
    && multiset(newest) <= multiset(all)
    && forall n, x :: n in newest && x in multiset(all) - multiset(newest) ==> n.created >= x.created
  }

  lemma FirstThreeAreNewest(scoped: seq<Image>)
    ensures Newest(NewestThree(scoped), scoped)
  {
    var sorted, newest := Sort(scoped, NewestFirst()), NewestThree(scoped);
    NewestIsAnOrder();
    SortIsAscending(scoped, NewestFirst());
    var rest := sorted[|newest|..];
    assert sorted == newest + rest;
    assert multiset(scoped) - multiset(newest) == multiset(rest);
    forall n, x | n in newest && x in multiset(scoped) - multiset(newest) ensures n.created >= x.created {
      assert x in rest;
      var i :| 0 <= i < |newest| && newest[i] == n;
      var j :| 0 <= j < |rest| && rest[j] == x;
      assert sorted[i] == n && sorted[|newest| + j] == x && NewestFirst()(n, x);
    }
  }

  function NewestThree(scoped: seq<Image>): seq<Image> {
    var sorted := Sort(scoped, NewestFirst());
    if |sorted| <= KEPT then sorted else sorted[..KEPT]
  }

  /** The first deployment protects the three newest images of the service and the running ones it was given. */
  lemma FirstBootstrapIsNewest(scoped: seq<Image>, previous: seq<Id>) returns (newest: seq<Image>)
    ensures Newest(newest, scoped) && Distinct(FirstBootstrap(scoped, previous))
    ensures forall id :: id in FirstBootstrap(scoped, previous) <==>
              id in Ids(newest) || (id in previous && id in Ids(scoped))
  {
    newest := NewestThree(scoped);
    FirstThreeAreNewest(scoped);
    var sorted := Sort(scoped, NewestFirst());
    assert Take(Ids(sorted), KEPT) == Ids(newest);
    DeduplicatedIsDistinct(Take(Ids(sorted), KEPT) + Present(previous, Ids(scoped)));
    PresentAreThose(previous, Ids(scoped));
  }

  /** A selection is refused exactly if some name is not one, or the deployed image is not one of the service. */
  lemma SelectionIsMade(images: seq<Image>, refs: set<Id>, service: string, id: Id, ref: string, saved: Saved, previous: seq<Id>)
    ensures Select(images, refs, service, id, ref, saved, previous).Accepted?
            <==> && Repository(ref).Accepted? && AllNamed(images)
                 && exists image :: image in images && image.id == id && InScope(image, Allowed(service, Repository(ref).value))
  {
    hide Repository, InScope, Allowed, MoveToFront, Take, FirstBootstrap, Recovery, Unkept;
    if Repository(ref).Accepted? {
      ScopedAreInScope(images, Allowed(service, Repository(ref).value));
    }
  }

  lemma {:induction false} ScopedAreInScope(images: seq<Image>, allowed: set<string>)
    ensures forall image :: image in Scoped(images, allowed) <==> image in images && InScope(image, allowed)
    ensures forall id :: id in Ids(Scoped(images, allowed)) <==> exists image :: image in images && InScope(image, allowed) && image.id == id
  {
    hide InScope;
    if images != [] {
      assert images == [images[0]] + images[1..];
      ScopedAreInScope(images[1..], allowed);
      hide Ids;
    }
    var scoped := Scoped(images, allowed);
    forall id ensures id in Ids(scoped) <==> exists image :: image in scoped && image.id == id {
      IdsAreIds(scoped, id);
    }
  }

  lemma IdsAreIds(images: seq<Image>, id: Id)
    ensures id in Ids(images) <==> exists image :: image in images && image.id == id
  {
    if id in Ids(images) {
      var i :| 0 <= i < |Ids(images)| && Ids(images)[i] == id;
      assert images[i] in images;
    }
    if image :| image in images && image.id == id {
      var i :| 0 <= i < |images| && images[i] == image;
      assert Ids(images)[i] == id;
    }
  }

  // ----- runs of deployments -----

  /** The unbounded list of deployed images, most recent first, each once. */
  function Deployed(runs: seq<Id>): seq<Id> {
    if runs == [] then [] else MoveToFront(runs[|runs| - 1], Deployed(runs[..|runs| - 1]))
  }

  predicate Distinct(list: seq<Id>) {
    forall i, j :: 0 <= i < j < |list| ==> list[i] != list[j]
  }

  lemma {:induction false} OthersAreOthers(x: Id, list: seq<Id>)
    requires Distinct(list)
    ensures Distinct(Others(x, list)) && forall y :: y in Others(x, list) <==> y in list && y != x
    ensures |Others(x, list)| == |list| - if x in list then 1 else 0
  {
    if list != [] {
      assert list == [list[0]] + list[1..];
      OthersAreOthers(x, list[1..]);
      assert list[0] !in list[1..];
    }
  }

  lemma {:induction false} DeployedIsDistinct(runs: seq<Id>)
    ensures Distinct(Deployed(runs)) && forall x :: x in Deployed(runs) <==> x in runs
  {
    if runs != [] {
      var init, last := runs[..|runs| - 1], runs[|runs| - 1];
      assert runs == init + [last];
      DeployedIsDistinct(init);
      OthersAreOthers(last, Deployed(init));
    }
  }

  lemma {:induction false} OthersOfPrefix(x: Id, list: seq<Id>, n: nat)
    requires Distinct(list) && n <= |list|
    ensures Others(x, list[..n]) <= Others(x, list)
    ensures |Others(x, list[..n])| >= n - 1
  {
    if n > 0 {
      assert list[..n][1..] == list[1..][..n - 1];
      if list[0] == x {
        OthersAreOthers(x, list[1..]);
        OthersAreOthers(x, list[1..][..n - 1]);
      }
      OthersOfPrefix(x, list[1..], n - 1);
    }
  }

  /** Cutting the list to three before moving to the front loses nothing that three can show. */
  lemma CutBeforeMoving(x: Id, list: seq<Id>)
    requires Distinct(list)
    ensures Take(MoveToFront(x, Take(list, KEPT)), KEPT) == Take(MoveToFront(x, list), KEPT)
  {
    if |list| > KEPT {
      OthersOfPrefix(x, list, KEPT);
      OthersAreOthers(x, list);
    }
  }

  /** One removed tag, with everything that could have protected its image when it was removed. */
  datatype Removal = Removal(
    tag: string, id: Id, history: seq<Id>, bootstrap: seq<Id>, refs: set<Id>, scoped: seq<Image>, previous: seq<Id>)

  /** The removed tag belongs to one of the candidates. */
  predicate Names(candidates: seq<Image>, r: Removal) {
    exists image :: image in candidates && image.id == r.id && r.tag in image.tags
  }

  ghost predicate Unprotected(r: Removal) {
    !Protected(r.id, r.history, r.bootstrap, r.refs, r.scoped, r.previous)
  }

  /** What was removed from some index on includes this tag of this image. */
  ghost predicate Removed(removals: seq<Removal>, since: nat, id: Id, tag: string) {
    exists k :: since <= k < |removals| && removals[k].id == id && removals[k].tag == tag
  }

  /** What the saved state must be after these applied deployments. */
  ghost predicate Recorded(saved: Saved, runs: seq<Id>, first: seq<Id>) {
    && saved.successful == Take(Deployed(runs), KEPT)
    && saved.bootstrap == (if runs == [] then None else Some(if |Deployed(runs)| >= KEPT then [] else first))
  }

  /** One more applied deployment: the history is cut from the unbounded list, the bootstrap decision of the
      first one stays until there have been three different images, and then never comes back. */
  lemma RecordOneMore(saved: Saved, runs: seq<Id>, first: seq<Id>, id: Id, decided: seq<Id>)
    requires Recorded(saved, runs, first)
    requires decided == if saved.bootstrap.None? then first else saved.bootstrap.value
    ensures var history := Take(MoveToFront(id, saved.successful), KEPT);
            Recorded(Saved(history, Some(if |history| >= KEPT then [] else decided)), runs + [id], first)
  {
    DeployedIsDistinct(runs);
    OthersAreOthers(id, Deployed(runs));
    CutBeforeMoving(id, Deployed(runs));
    assert (runs + [id])[..|runs|] == runs;
  }

  class Host {
    var saved: Saved
    /** The tags Docker knows, and the images they name. */
    var tagOf: map<string, Id>
    ghost var runs: seq<Id>
    ghost var first: seq<Id>
    ghost var removals: seq<Removal>
    /** What the environment has denied so far: a step that failed, or an image whose tags had changed. */
    ghost var faults: nat

    ghost predicate Valid()
      reads this
    {
      Recorded(saved, runs, first) && forall r :: r in removals ==> Unprotected(r)
    }

    constructor ()
      ensures Valid() && runs == [] && removals == []
    {
      saved, tagOf, runs, first, removals, faults := Saved([], None), map[], [], [], [], 0;
    }

    /** A step of the environment. */
    method Try() returns (r: Outcome<()>)
      modifies this`faults
      ensures faults == old(faults) + if r.Done? then 0 else 1
    {
      r := Fate();
      faults := faults + if r.Done? then 0 else 1;
    }

    /** Other users of the Docker daemon, between two of our calls. */
    method Elsewhere()
      modifies this`tagOf
    {
      tagOf := *;
    }

    /** The tags of one candidate go one by one, each only while it still names the image. */
    method RemoveTags(candidate: Image, tags: seq<string>, ghost why: Removal) returns (r: Outcome<()>)
      requires Valid() && Unprotected(why) && why.id == candidate.id
      modifies this`tagOf, this`removals, this`faults
      ensures Valid() && old(removals) <= removals
      ensures forall k :: |old(removals)| <= k < |removals| ==>
                removals[k].id == candidate.id && removals[k].tag in tags
      ensures faults >= old(faults) && (faults == old(faults) <==> r.Done?)
      ensures r.Done? ==> forall tag :: tag in tags ==> Removed(removals, |old(removals)|, candidate.id, tag)
    {
      hide Recorded, Protected;
      for i := 0 to |tags|
        invariant Valid() && old(removals) <= removals
        invariant forall k :: |old(removals)| <= k < |removals| ==>
                    removals[k].id == candidate.id && removals[k].tag in tags
        invariant faults == old(faults)
        invariant forall k :: 0 <= k < i ==> Removed(removals, |old(removals)|, candidate.id, tags[k])
      {
        Elsewhere();
        var tag := tags[i];
        if tag !in tagOf || tagOf[tag] != candidate.id {
          faults := faults + 1;
          return Raised;
        }
        var _ :- Try();
        tagOf := tagOf - {tag};
        ghost var before := removals;
        removals := removals + [why.(tag := tag)];
        RemovedStays(before, removals, |old(removals)|);
        assert removals[|before|].id == candidate.id && removals[|before|].tag == tag;
        assert Removed(removals, |old(removals)|, candidate.id, tag);
      }
      r := Done(());
    }

    method Clean(plan: Plan, ghost why: Removal) returns (r: Outcome<()>)
      requires Valid()
      requires forall image :: image in plan.candidates ==> Unprotected(why.(id := image.id))
      modifies this`tagOf, this`removals, this`faults
      ensures Valid() && old(removals) <= removals
      ensures forall k :: |old(removals)| <= k < |removals| ==> Names(plan.candidates, removals[k])
      ensures faults >= old(faults) && (faults == old(faults) ==> r.Done?)
      ensures r.Done? ==> forall image, tag :: image in plan.candidates && tag in image.tags ==>
                            Removed(removals, |old(removals)|, image.id, tag)
    {
      hide Recorded, Unprotected, Removed;
      for i := 0 to |plan.candidates|
        invariant Valid() && old(removals) <= removals
        invariant forall k :: |old(removals)| <= k < |removals| ==> Names(plan.candidates, removals[k])
        invariant faults == old(faults)
        invariant forall k, tag :: 0 <= k < i && tag in plan.candidates[k].tags ==> Removed(removals, |old(removals)|, plan.candidates[k].id, tag)
      {
        var candidate := plan.candidates[i];
        var _ :- Try();
        Elsewhere();
        if (set tag | tag in tagOf && tagOf[tag] == candidate.id) != (set tag | tag in candidate.tags) {
          faults := faults + 1;
          return Raised;
        }
        assert candidate in plan.candidates;
        ghost var before := removals;
        var removed := RemoveTags(candidate, candidate.tags, why.(id := candidate.id));
        RemovedStays(before, removals, |old(removals)|);
        RemovedEarlier(removals, |old(removals)|, |before|);
        if !removed.Done? {
          return removed;
        }
      }
      r := Try();
    }

    /** One run for a deployed image. Only an applied run that selects is recorded, and then even if its
        cleanup fails or the process dies; a refused or dry run leaves the state alone. */
    method Execute(service: string, images: seq<Image>, refs: set<Id>, healthy: bool, id: Id, ref: string,
                   previous: seq<Id>, apply: bool) returns (r: Outcome<()>)
      requires Valid()
      modifies this
      ensures Valid()
      ensures old(removals) <= removals
      ensures runs == old(runs) + [id] || (runs == old(runs) && saved == old(saved) && removals == old(removals))
      ensures !apply ==> runs == old(runs)
      ensures r.Done? && apply ==> runs == old(runs) + [id]
      ensures runs != old(runs) ==> healthy && Select(images, refs, service, id, ref, old(saved), previous).Accepted?
      ensures old(runs) != [] ==> first == old(first)
      ensures old(runs) == [] && runs != [] ==>
                Repository(ref).Accepted? && first == FirstBootstrap(Scoped(images, Allowed(service, Repository(ref).value)), previous)
      ensures faults >= old(faults)
      ensures faults == old(faults) && healthy && Select(images, refs, service, id, ref, old(saved), previous).Accepted? ==> r.Done?
      ensures r.Done? && apply ==>
                var selected := Select(images, refs, service, id, ref, old(saved), previous);
                selected.Accepted? && forall image, tag :: image in selected.value.candidates && tag in image.tags ==>
                                        Removed(removals, |old(removals)|, image.id, tag)
      ensures forall k :: |old(removals)| <= k < |removals| ==>
                && removals[k].id !in saved.successful && removals[k].id !in refs && removals[k].id !in previous
                && saved.bootstrap.Some? && removals[k].id !in saved.bootstrap.value
                && !RecoveryTagged(images, service, ref, removals[k].id)
    {
      hide Recorded, Unprotected, Protected, Names, Scoped, Allowed, MoveToFront, Take, FirstBootstrap, Recovery, RecoveryTagged, Repository;
      if !healthy {
        return Raised;
      }
      var selected := Select(images, refs, service, id, ref, saved, previous);
      if selected.Rejected? {
        return Raised;
      }
      var plan := selected.value;
      if !apply {
        return Done(());
      }
      r := Try();
      if !r.Done? {
        return;
      }
      ghost var own := Repository(ref).value;
      ghost var scoped := Scoped(images, Allowed(service, own));
      ghost var begin := if saved.bootstrap.None? then FirstBootstrap(scoped, previous) else first;
      Begun(saved, runs, first, begin);
      RecordOneMore(saved, runs, begin, id, if saved.bootstrap.None? then begin else saved.bootstrap.value);
      saved, runs, first := Saved(plan.successful, Some(plan.bootstrap)), runs + [id], begin;
      ghost var why := Removal("", "", plan.successful, plan.bootstrap, refs, scoped, previous);
      UnkeptIsUnprotected(plan, why);
      ghost var before := removals;
      r := Clean(plan, why);
      NewRemovalsSpare(removals, |before|, plan, why);
      forall k | |before| <= k < |removals| ensures !RecoveryTagged(images, service, ref, removals[k].id) {
        RecoveryTaggedIsRecovery(images, service, ref, removals[k].id);
      }
    }
  }

  lemma RemovedEarlier(removals: seq<Removal>, since: nat, later: nat)
    requires since <= later
    ensures forall id, tag :: Removed(removals, later, id, tag) ==> Removed(removals, since, id, tag)
  {
  }

  lemma RemovedStays(before: seq<Removal>, after: seq<Removal>, since: nat)
    requires before <= after
    ensures forall id, tag :: Removed(before, since, id, tag) ==> Removed(after, since, id, tag)
  {
    forall id, tag | Removed(before, since, id, tag) ensures Removed(after, since, id, tag) {
      var k :| since <= k < |before| && before[k].id == id && before[k].tag == tag;
      assert after[k] == before[k];
    }
  }

  /** Before the first applied run any bootstrap decision is open. */
  lemma Begun(saved: Saved, runs: seq<Id>, first: seq<Id>, begin: seq<Id>)
    requires Recorded(saved, runs, first) && (saved.bootstrap.Some? ==> begin == first)
    ensures Recorded(saved, runs, begin) && (saved.bootstrap.None? <==> runs == [])
  {
  }

  lemma NewRemovalsSpare(removals: seq<Removal>, start: nat, plan: Plan, why: Removal)
    requires forall image :: image in plan.candidates ==> Unprotected(why.(id := image.id))
    requires forall k :: start <= k < |removals| ==> Names(plan.candidates, removals[k])
    ensures forall k :: start <= k < |removals| ==>
              && removals[k].id !in why.history && removals[k].id !in why.bootstrap && removals[k].id !in why.refs
              && removals[k].id !in Recovery(why.scoped) && removals[k].id !in why.previous
  {
    forall k | start <= k < |removals| ensures Unprotected(why.(id := removals[k].id)) {
      assert Names(plan.candidates, removals[k]);
    }
  }

  lemma UnkeptIsUnprotected(plan: Plan, why: Removal)
    requires forall x :: x in plan.keep <==> Protected(x, why.history, why.bootstrap, why.refs, why.scoped, why.previous)
    requires forall image :: image in plan.candidates ==> image.id !in plan.keep
    ensures forall image :: image in plan.candidates ==> Unprotected(why.(id := image.id))
  {
  }
}
