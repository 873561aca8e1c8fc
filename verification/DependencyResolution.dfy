/**
 * Choosing how to provide a dependency: a chain of methods in priority order,
 * in which an indeterminate answer blocks everything below it.
 */
module DependencyResolution {
  import opened Common

  datatype Kind = PackageExact | ExternalRepo | PinnedArtifact | SourceBuild | UnknownKind

  datatype Identity = MappedBase | RollingDistribution | ResolvedRelease | UnknownIdentity

  /** `metadataComplete` is the verdict on the method's pins and integrity data. */
  datatype Candidate = Candidate(
    id: string, priority: int, kind: Kind, identity: Identity,
    families: set<string>, architectures: set<string>, rolling: set<string>, stable: set<string>,
    implemented: bool, metadataComplete: bool,
    packages: seq<string>, bootstrap: Option<string>, compatibleTargets: set<string>, assets: seq<string>)

  datatype ReleaseModel = Rolling | Stable | UnknownModel

  datatype Facts = Facts(
    family: Option<string>, architecture: Option<string>, model: ReleaseModel,
    distribution: Option<string>, release: Option<string>, base: Option<string>)

  datatype Availability =
    | Available | Unavailable | Unknown | Timeout | PermissionDenied | MalformedResponse | ProviderError

  datatype Operation =
    | PackageExists | RepositorySupports | RepositoryPackage | ArtifactExists | IntegrityAvailable | RevisionAvailable | UnknownOperation

  datatype Observation = Observation(id: string, operation: Operation, package: Option<string>, status: Availability)

  /** A provider answers each question with one of the seven statuses. */
  type Provider = (Operation, Candidate, string, Option<string>) -> Availability

  datatype Reason =
    | FamilyNotApplicable | ArchitectureNotSupported | RollingIdentityRequired | RollingNotTargeted
    | ModelUnknown | ReleaseUnknown | ReleaseNotTargeted | BaseAbsent | StableCannotRoll | IdentityUnknown
    | MetadataIncomplete | NotAvailable(status: Availability) | NotEvaluated(blocker: string)

  datatype Rejection = Rejection(id: string, kind: Kind, reason: Reason)

  datatype Status =
    | AlreadyPresent | MethodSelected | RecipeNotImplemented | AvailabilityUnknown | OutOfContract
    | NoSafeRoute | ObservationMissing | PreparationFailed

  datatype Decision = Decision(
    status: Status, selected: Option<Candidate>, ready: bool, rejected: seq<Rejection>,
    observations: seq<Observation>, allObservations: seq<Observation>)

  datatype Error = DuplicatePriorities | AmbiguousArtifact

  predicate Blocks(s: Availability) {
    s.Unknown? || s.Timeout? || s.PermissionDenied? || s.MalformedResponse? || s.ProviderError?
  }

  // ---------------------------------------------------------------------
  // One candidate
  // ---------------------------------------------------------------------

  predicate Has(s: set<string>, value: Option<string>) {
    value.Some? && value.value in s
  }

  function RollingTarget(facts: Facts, c: Candidate): Result<string, Reason> {
    if c.identity != RollingDistribution then Err(RollingIdentityRequired)
    else if !Has(c.rolling, facts.distribution) then Err(RollingNotTargeted)
    else Ok(facts.distribution.value)
  }

  function StableTarget(facts: Facts, c: Candidate): Result<string, Reason> {
    if facts.release.None? then Err(ReleaseUnknown)
    else if facts.release.value !in c.stable then Err(ReleaseNotTargeted)
    else
      match c.identity
      case MappedBase => if facts.base.None? || facts.base.value == "" then Err(BaseAbsent) else Ok(facts.base.value)
      case RollingDistribution => Err(StableCannotRoll)
      case UnknownIdentity => Err(IdentityUnknown)
      case ResolvedRelease => Ok(facts.release.value)
  }

  function Target(facts: Facts, c: Candidate): Result<string, Reason> {
    if !Has(c.families, facts.family) then Err(FamilyNotApplicable)
    else if !Has(c.architectures, facts.architecture) then Err(ArchitectureNotSupported)
    else
      match facts.model
      case Rolling => RollingTarget(facts, c)
      case UnknownModel => Err(ModelUnknown)
      case Stable => StableTarget(facts, c)
  }

  /** A status together with the observations that led to it. */
  datatype Checked = Checked(status: Availability, observations: seq<Observation>)

  /** The first package that is not available decides. */
  function Packages(provider: Provider, c: Candidate, target: string, names: seq<string>,
      seen: seq<Observation>): Checked {
    if names == [] then Checked(Available, seen)
    else
      var status := provider(PackageExists, c, target, Some(names[0]));
      var all := seen + [Observation(c.id, PackageExists, Some(names[0]), status)];
      if status != Available then Checked(status, all) else Packages(provider, c, target, names[1..], all)
  }

  function Repository(provider: Provider, c: Candidate, target: string): Checked {
    if target !in c.compatibleTargets then
      Checked(Unavailable, [Observation(c.id, RepositorySupports, None, Unavailable)])
    else
      var repo := provider(RepositorySupports, c, target, None);
      var seen := [Observation(c.id, RepositorySupports, None, repo)];
      if repo != Available then Checked(repo, seen)
      else
        var boot := if c.bootstrap.Some? then provider(PackageExists, c, target, c.bootstrap) else Available;
        var more := if c.bootstrap.Some? then seen + [Observation(c.id, RepositoryPackage, c.bootstrap, boot)] else seen;
        if boot != Available then Checked(boot, more)
        else
          Packages(provider, c, target, c.packages, more)
  }

  function Artifact(provider: Provider, c: Candidate, target: string): Checked {
    var exists_ := provider(ArtifactExists, c, target, None);
    var seen := [Observation(c.id, ArtifactExists, None, exists_)];
    if exists_ != Available then Checked(exists_, seen)
    else
      var integrity := provider(IntegrityAvailable, c, target, None);
      Checked(integrity, seen + [Observation(c.id, IntegrityAvailable, None, integrity)])
  }

  function Matching(assets: seq<string>, architecture: Option<string>): nat {
    if assets == [] then 0
    else Matching(assets[1..], architecture) + if Some(assets[0]) == architecture then 1 else 0
  }

  function Check(provider: Provider, c: Candidate, target: string, facts: Facts): Result<Checked, Error> {
    match c.kind
    case PackageExact => Ok(Packages(provider, c, target, c.packages, []))
    case ExternalRepo => Ok(Repository(provider, c, target))
    case PinnedArtifact =>
      if Matching(c.assets, facts.architecture) != 1 then Err(AmbiguousArtifact) else Ok(Artifact(provider, c, target))
    case SourceBuild =>
      var status := provider(RevisionAvailable, c, target, None);
      Ok(Checked(status, [Observation(c.id, RevisionAvailable, None, status)]))
    case UnknownKind => Ok(Checked(MalformedResponse, [Observation(c.id, UnknownOperation, None, MalformedResponse)]))
  }

  /** What becomes of a candidate that the loop reaches. */
  datatype Evaluation =
    | Unfit(reason: Reason)
    | Answered(checked: Checked)
    | Broken(error: Error)

  function Evaluate(provider: Provider, facts: Facts, c: Candidate): Evaluation {
    match Target(facts, c)
    case Err(reason) => Unfit(reason)
    case Ok(target) =>
      if !c.metadataComplete then Unfit(MetadataIncomplete)
      else
        match Check(provider, c, target, facts)
        case Err(e) => Broken(e)
        case Ok(checked) => Answered(checked)
  }

  predicate Passes(e: Evaluation) {
    e.Answered? && e.checked.status == Available
  }

  predicate Indeterminate(e: Evaluation) {
    e.Answered? && Blocks(e.checked.status)
  }

  /** The loop goes on to the next candidate. */
  predicate Skipped(e: Evaluation) {
    e.Unfit? || (e.Answered? && e.checked.status == Unavailable)
  }

  function Skip(c: Candidate, e: Evaluation): Rejection
    requires !e.Broken?
  {
    Rejection(c.id, c.kind, if e.Unfit? then e.reason else NotAvailable(e.checked.status))
  }

  function Seen(e: Evaluation): seq<Observation> {
    if e.Answered? then e.checked.observations else []
  }

  // ---------------------------------------------------------------------
  // The chain
  // ---------------------------------------------------------------------

  function NotReached(chain: seq<Candidate>, blocker: string): seq<Rejection> {
    seq(|chain|, i requires 0 <= i < |chain| => Rejection(chain[i].id, chain[i].kind, NotEvaluated(blocker)))
  }

  predicate ExecutionReady(c: Candidate) {
    c.kind == SourceBuild && c.implemented
  }

  /** The decision over a chain in priority order, given what was already rejected and observed. */
  function Choose(provider: Provider, facts: Facts, chain: seq<Candidate>, rejected: seq<Rejection>,
      observed: seq<Observation>): Result<Decision, Error> {
    if chain == [] then Ok(Decision(NoSafeRoute, None, false, rejected, [], observed))
    else
      var c := chain[0];
      var e := Evaluate(provider, facts, c);
      if e.Broken? then Err(e.error)
      else if Skipped(e) then Choose(provider, facts, chain[1..], rejected + [Skip(c, e)], observed + Seen(e))
      else if Indeterminate(e) then
        Ok(Decision(AvailabilityUnknown, None, false, rejected + [Skip(c, e)] + NotReached(chain[1..], c.id), Seen(e), observed + Seen(e)))
      else
        var ready := ExecutionReady(c);
        Ok(Decision(if ready then MethodSelected else RecipeNotImplemented, Some(c), ready, rejected, Seen(e), observed + Seen(e)))
  }

  predicate AllSkipped(provider: Provider, facts: Facts, chain: seq<Candidate>) {
    forall i :: 0 <= i < |chain| ==> Skipped(Evaluate(provider, facts, chain[i]))
  }

  /** The candidate that ends the loop: the first that is not skipped. */
  ghost predicate Decides(provider: Provider, facts: Facts, chain: seq<Candidate>, k: nat) {
    k < |chain| && AllSkipped(provider, facts, chain[..k]) && !Skipped(Evaluate(provider, facts, chain[k]))
  }

  lemma EvaluationCases(e: Evaluation)
    ensures e.Broken? || Skipped(e) || Indeterminate(e) || Passes(e)
    ensures !(Skipped(e) && Indeterminate(e)) && !(Skipped(e) && Passes(e)) && !(Indeterminate(e) && Passes(e))
  {
  }

  function Ids(rejected: seq<Rejection>): seq<string> {
    seq(|rejected|, i requires 0 <= i < |rejected| => rejected[i].id)
  }

  function Names(chain: seq<Candidate>): seq<string> {
    seq(|chain|, i requires 0 <= i < |chain| => chain[i].id)
  }

  lemma IdsSnoc(rejected: seq<Rejection>, r: Rejection)
    ensures Ids(rejected + [r]) == Ids(rejected) + [r.id]
  {
  }

  /** Everything observed about some candidates, in order. */
  function SeenAll(provider: Provider, facts: Facts, chain: seq<Candidate>): seq<Observation> {
    if chain == [] then [] else Seen(Evaluate(provider, facts, chain[0])) + SeenAll(provider, facts, chain[1..])
  }

  /** The decision made at the deciding candidate `c`, after `above` were skipped. */
  ghost predicate Concluded(d: Result<Decision, Error>, e: Evaluation, c: Candidate, above: seq<string>,
      all: seq<string>, seen: seq<Observation>) {
    if e.Broken? then d == Err(e.error)
    else
      && d.Ok? && d.value.observations == Seen(e) && d.value.allObservations == seen
      && if Passes(e) then
           && d.value.selected == Some(c) && Ids(d.value.rejected) == above
           && d.value.ready == ExecutionReady(c) && d.value.status == if ExecutionReady(c) then MethodSelected else RecipeNotImplemented
         else
           && d.value.selected.None? && !d.value.ready && d.value.status == AvailabilityUnknown && Ids(d.value.rejected) == all
  }

  lemma {:induction false} ChooseAt(provider: Provider, facts: Facts, chain: seq<Candidate>,
      rejected: seq<Rejection>, observed: seq<Observation>, k: nat)
    requires Decides(provider, facts, chain, k)
    ensures Concluded(Choose(provider, facts, chain, rejected, observed), Evaluate(provider, facts, chain[k]), chain[k],
                      Ids(rejected) + Names(chain[..k]), Ids(rejected) + Names(chain), observed + SeenAll(provider, facts, chain[..k + 1]))
    decreases |chain|
  {
    hide Evaluate;
    if k == 0 {
      ChooseFirst(provider, facts, chain, rejected, observed);
    } else {
      var e := Evaluate(provider, facts, chain[0]);
      assert chain[..k][0] == chain[0];
      assert chain[1..][..k - 1] == chain[..k][1..];
      assert AllSkipped(provider, facts, chain[1..][..k - 1]);
      assert chain[..k + 1][1..] == chain[1..][..k];
      var more, seen := rejected + [Skip(chain[0], e)], observed + Seen(e);
      ChooseAt(provider, facts, chain[1..], more, seen, k - 1);
      IdsSnoc(rejected, Skip(chain[0], e));
      NamesCons(chain);
      NamesCons(chain[..k]);
      assert seen + SeenAll(provider, facts, chain[1..][..k]) == observed + SeenAll(provider, facts, chain[..k + 1]);
      assert Ids(more) + Names(chain[1..][..k - 1]) == Ids(rejected) + Names(chain[..k]);
      assert Ids(more) + Names(chain[1..]) == Ids(rejected) + Names(chain);
      assert Choose(provider, facts, chain, rejected, observed) == Choose(provider, facts, chain[1..], more, seen);
      hide Choose, Concluded, SeenAll, Names, Ids;
    }
  }

  lemma NamesCons(chain: seq<Candidate>)
    requires chain != []
    ensures Names(chain) == [chain[0].id] + Names(chain[1..])
  {
  }

  lemma ChooseFirst(provider: Provider, facts: Facts, chain: seq<Candidate>, rejected: seq<Rejection>,
      observed: seq<Observation>)
    requires Decides(provider, facts, chain, 0)
    ensures Concluded(Choose(provider, facts, chain, rejected, observed), Evaluate(provider, facts, chain[0]), chain[0],
                      Ids(rejected) + Names(chain[..0]), Ids(rejected) + Names(chain), observed + SeenAll(provider, facts, chain[..1]))
  {
    hide Evaluate;
    var e := Evaluate(provider, facts, chain[0]);
    EvaluationCases(e);
    assert chain[..1][1..] == [] && chain[..1][0] == chain[0];
    assert SeenAll(provider, facts, chain[..1]) == Seen(e) + [];
    assert Names(chain[..0]) == [];
    if Indeterminate(e) {
      NamesCons(chain);
      IdsSnoc(rejected, Skip(chain[0], e));
      assert Ids(NotReached(chain[1..], chain[0].id)) == Names(chain[1..]);
    }
  }

  lemma {:induction false} ChooseNone(provider: Provider, facts: Facts, chain: seq<Candidate>,
      rejected: seq<Rejection>, observed: seq<Observation>)
    requires AllSkipped(provider, facts, chain)
    ensures var d := Choose(provider, facts, chain, rejected, observed);
            && d.Ok? && d.value.selected.None? && !d.value.ready && d.value.status == NoSafeRoute
            && Ids(d.value.rejected) == Ids(rejected) + Names(chain)
            && d.value.observations == [] && d.value.allObservations == observed + SeenAll(provider, facts, chain)
    decreases |chain|
  {
    hide Evaluate;
    if chain != [] {
      var e := Evaluate(provider, facts, chain[0]);
      EvaluationCases(e);
      ChooseNone(provider, facts, chain[1..], rejected + [Skip(chain[0], e)], observed + Seen(e));
      IdsSnoc(rejected, Skip(chain[0], e));
      NamesCons(chain);
    }
  }

  /** Some candidate ends the loop, unless all are skipped. */
  lemma {:induction false} SomeoneDecides(provider: Provider, facts: Facts, chain: seq<Candidate>) returns (k: nat)
    requires !AllSkipped(provider, facts, chain)
    ensures Decides(provider, facts, chain, k)
  {
    hide Evaluate, Skipped;
    var n := |chain| - 1;
    if AllSkipped(provider, facts, chain[..n]) {
      k := n;
    } else {
      k := SomeoneDecides(provider, facts, chain[..n]);
      assert chain[..n][..k] == chain[..k];
    }
  }

  ghost predicate InOrder(chain: seq<Candidate>) {
    forall i, j :: 0 <= i < j < |chain| ==> chain[i].priority < chain[j].priority
  }

  function Decide(provider: Provider, facts: Facts, chain: seq<Candidate>): Result<Decision, Error> {
    Choose(provider, facts, chain, [], [])
  }

  /** The selected candidate is the first, in priority order, that passes, and everything above it was skipped. */
  lemma SelectsFirstPassing(provider: Provider, facts: Facts, chain: seq<Candidate>, k: nat)
    requires InOrder(chain) && k < |chain|
    ensures var d := Decide(provider, facts, chain);
            d.Ok? && d.value.selected == Some(chain[k]) <==>
            AllSkipped(provider, facts, chain[..k]) && Passes(Evaluate(provider, facts, chain[k]))
  {
    hide Evaluate;
    EvaluationCases(Evaluate(provider, facts, chain[k]));
    if AllSkipped(provider, facts, chain) {
      ChooseNone(provider, facts, chain, [], []);
    } else {
      var i := SomeoneDecides(provider, facts, chain);
      ChooseAt(provider, facts, chain, [], [], i);
      EvaluationCases(Evaluate(provider, facts, chain[i]));
      if k < i {
        assert chain[..i][k] == chain[k];
      } else if i < k {
        assert chain[..k][i] == chain[i];
      }
      hide Choose, AllSkipped, Skipped;
    }
  }

  /** Nothing is selected below an indeterminate candidate. */
  lemma NeverBelowIndeterminate(provider: Provider, facts: Facts, chain: seq<Candidate>, j: nat, k: nat)
    requires InOrder(chain) && j < k < |chain| && Indeterminate(Evaluate(provider, facts, chain[j]))
    ensures var d := Decide(provider, facts, chain); d.Ok? ==> d.value.selected != Some(chain[k])
  {
    hide Evaluate, Decide;
    SelectsFirstPassing(provider, facts, chain, k);
    EvaluationCases(Evaluate(provider, facts, chain[j]));
    assert chain[..k][j] == chain[j];
  }

  /** Every candidate considered is rejected exactly once, in order, or is the one selected. */
  lemma EveryCandidateAccounted(provider: Provider, facts: Facts, chain: seq<Candidate>)
    requires InOrder(chain)
    ensures var d := Decide(provider, facts, chain);
            d.Ok? ==>
              if d.value.selected.None? then Ids(d.value.rejected) == Names(chain)
              else exists k :: 0 <= k < |chain| && d.value.selected == Some(chain[k]) && Ids(d.value.rejected) == Names(chain[..k])
  {
    hide Evaluate, Choose;
    if AllSkipped(provider, facts, chain) {
      ChooseNone(provider, facts, chain, [], []);
    } else {
      var k := SomeoneDecides(provider, facts, chain);
      ChooseAt(provider, facts, chain, [], [], k);
    }
    assert Ids([]) == [];
  }

  lemma {:induction false} SameEvaluations(p: Provider, q: Provider, facts: Facts, chain: seq<Candidate>,
      rejected: seq<Rejection>, observed: seq<Observation>, k: nat)
    requires Decides(p, facts, chain, k)
    requires forall i :: 0 <= i <= k ==> Evaluate(p, facts, chain[i]) == Evaluate(q, facts, chain[i])
    ensures Choose(p, facts, chain, rejected, observed) == Choose(q, facts, chain, rejected, observed)
    decreases |chain|
  {
    hide Evaluate;
    var e := Evaluate(p, facts, chain[0]);
    assert Evaluate(q, facts, chain[0]) == e;
    EvaluationCases(e);
    if k > 0 {
      assert chain[..k][0] == chain[0];
      assert chain[1..][..k - 1] == chain[..k][1..];
      SameEvaluations(p, q, facts, chain[1..], rejected + [Skip(chain[0], e)], observed + Seen(e), k - 1);
    }
  }

  /** What each status of a decision means. */
  lemma StatusMeans(provider: Provider, facts: Facts, chain: seq<Candidate>)
    ensures var d := Decide(provider, facts, chain);
            d.Ok? ==>
              && (d.value.status == NoSafeRoute <==> AllSkipped(provider, facts, chain))
              && (d.value.status == AvailabilityUnknown <==>
                    exists k: nat :: Decides(provider, facts, chain, k) && Indeterminate(Evaluate(provider, facts, chain[k])))
              && (d.value.status == MethodSelected <==> d.value.selected.Some? && ExecutionReady(d.value.selected.value))
              && (d.value.status == RecipeNotImplemented <==> d.value.selected.Some? && !ExecutionReady(d.value.selected.value))
              && (d.value.ready <==> d.value.status == MethodSelected)
  {
    hide Evaluate, Choose, ExecutionReady;
    if AllSkipped(provider, facts, chain) {
      ChooseNone(provider, facts, chain, [], []);
    } else {
      var k := SomeoneDecides(provider, facts, chain);
      ChooseAt(provider, facts, chain, [], [], k);
      EvaluationCases(Evaluate(provider, facts, chain[k]));
      forall j: nat | Decides(provider, facts, chain, j) ensures j == k {
        OneDecides(provider, facts, chain, j, k);
      }
    }
  }

  lemma SkippedAbove(provider: Provider, facts: Facts, chain: seq<Candidate>, j: nat, k: nat)
    requires Decides(provider, facts, chain, k) && j < k
    ensures !Decides(provider, facts, chain, j)
  {
    assert chain[..k][j] == chain[j];
  }

  lemma OneDecides(provider: Provider, facts: Facts, chain: seq<Candidate>, j: nat, k: nat)
    requires Decides(provider, facts, chain, j) && Decides(provider, facts, chain, k)
    ensures j == k
  {
    hide Decides;
    if j < k {
      SkippedAbove(provider, facts, chain, j, k);
    } else if k < j {
      SkippedAbove(provider, facts, chain, k, j);
    }
  }

  /** Only candidates down to the deciding one are asked about, in order. */
  lemma ObservationsInOrder(provider: Provider, facts: Facts, chain: seq<Candidate>, k: nat)
    requires Decides(provider, facts, chain, k)
    ensures var d := Decide(provider, facts, chain);
            d.Ok? ==> && d.value.observations == Seen(Evaluate(provider, facts, chain[k]))
                      && d.value.allObservations == SeenAll(provider, facts, chain[..k + 1])
  {
    hide Evaluate, Choose, SeenAll;
    ChooseAt(provider, facts, chain, [], [], k);
  }

  /** Two providers answer every question about a candidate alike. */
  ghost predicate SameAnswers(p: Provider, q: Provider, c: Candidate) {
    forall operation, target, package :: p(operation, c, target, package) == q(operation, c, target, package)
  }

  lemma {:induction false} SamePackages(p: Provider, q: Provider, c: Candidate, target: string,
      names: seq<string>, seen: seq<Observation>)
    requires SameAnswers(p, q, c)
    ensures Packages(p, c, target, names, seen) == Packages(q, c, target, names, seen)
  {
    if names != [] {
      var status := p(PackageExists, c, target, Some(names[0]));
      assert status == q(PackageExists, c, target, Some(names[0]));
      SamePackages(p, q, c, target, names[1..], seen + [Observation(c.id, PackageExists, Some(names[0]), status)]);
    }
  }

  lemma SameRepository(p: Provider, q: Provider, c: Candidate, target: string)
    requires SameAnswers(p, q, c)
    ensures Repository(p, c, target) == Repository(q, c, target)
  {
    hide Packages;
    forall seen ensures Packages(p, c, target, c.packages, seen) == Packages(q, c, target, c.packages, seen) {
      SamePackages(p, q, c, target, c.packages, seen);
    }
  }

  lemma SameEvaluation(p: Provider, q: Provider, facts: Facts, c: Candidate)
    requires SameAnswers(p, q, c)
    ensures Evaluate(p, facts, c) == Evaluate(q, facts, c)
  {
    hide Packages, Repository, Matching;
    var target := Target(facts, c);
    if target.Ok? {
      SamePackages(p, q, c, target.value, c.packages, []);
      SameRepository(p, q, c, target.value);
    }
    hide Target;
  }

  /** Answers about candidates below the deciding one make no difference. */
  lemma AnswersBelowIgnored(p: Provider, q: Provider, facts: Facts, chain: seq<Candidate>, k: nat)
    requires Decides(p, facts, chain, k)
    requires forall i :: 0 <= i <= k ==> SameAnswers(p, q, chain[i])
    ensures Decide(p, facts, chain) == Decide(q, facts, chain)
  {
    hide Choose, Evaluate;
    forall i | 0 <= i <= k ensures Evaluate(p, facts, chain[i]) == Evaluate(q, facts, chain[i]) {
      SameEvaluation(p, q, facts, chain[i]);
    }
    SameEvaluations(p, q, facts, chain, [], [], k);
  }

  // ---------------------------------------------------------------------
  // Loading the chain
  // ---------------------------------------------------------------------

  function Insert(c: Candidate, chain: seq<Candidate>): seq<Candidate> {
    if chain == [] then [c]
    else if chain[|chain| - 1].priority <= c.priority then chain + [c]
    else Insert(c, chain[..|chain| - 1]) + [chain[|chain| - 1]]
  }

  function SortByPriority(chain: seq<Candidate>): seq<Candidate> {
    if chain == [] then [] else Insert(chain[|chain| - 1], SortByPriority(chain[..|chain| - 1]))
  }

  ghost predicate DistinctPriorities(chain: seq<Candidate>) {
    forall i, j :: 0 <= i < j < |chain| ==> chain[i].priority != chain[j].priority
  }

  lemma {:induction false} InsertPermutes(c: Candidate, chain: seq<Candidate>)
    ensures multiset(Insert(c, chain)) == multiset(chain) + multiset{c}
  {
    if chain != [] && chain[|chain| - 1].priority > c.priority {
      var init := chain[..|chain| - 1];
      InsertPermutes(c, init);
      assert chain == init + [chain[|chain| - 1]];
    }
  }

  lemma {:induction false} SortPermutes(chain: seq<Candidate>)
    ensures multiset(SortByPriority(chain)) == multiset(chain)
  {
    hide Insert;
    if chain != [] {
      var init, last := chain[..|chain| - 1], chain[|chain| - 1];
      SortPermutes(init);
      InsertPermutes(last, SortByPriority(init));
      SnocMultiset(init, last);
      assert chain == init + [last];
    }
  }

  lemma SnocMultiset(init: seq<Candidate>, last: Candidate)
    ensures multiset(init + [last]) == multiset(init) + multiset{last}
  {
  }

  lemma OrderSnoc(chain: seq<Candidate>, last: Candidate)
    requires InOrder(chain) && forall x :: x in chain ==> x.priority < last.priority
    ensures InOrder(chain + [last])
  {
    forall i | 0 <= i < |chain| ensures chain[i].priority < last.priority {
      assert chain[i] in chain;
    }
  }

  lemma {:induction false} InsertOrders(c: Candidate, chain: seq<Candidate>)
    requires InOrder(chain) && forall x :: x in chain ==> x.priority != c.priority
    ensures InOrder(Insert(c, chain))
  {
    if chain != [] {
      var init, last := chain[..|chain| - 1], chain[|chain| - 1];
      if last.priority > c.priority {
        InsertOrders(c, init);
        InsertPermutes(c, init);
        forall x | x in Insert(c, init) ensures x.priority < last.priority {
          assert x in multiset(Insert(c, init));
        }
        hide Insert;
        OrderSnoc(Insert(c, init), last);
      } else {
        assert last in chain;
        OrderSnoc(chain, c);
      }
    }
  }

  lemma {:induction false} SortOrders(chain: seq<Candidate>)
    requires DistinctPriorities(chain)
    ensures InOrder(SortByPriority(chain))
  {
    if chain != [] {
      var init, last := chain[..|chain| - 1], chain[|chain| - 1];
      SortOrders(init);
      SortPermutes(init);
      forall x | x in SortByPriority(init) ensures x.priority != last.priority {
        assert x in multiset(SortByPriority(init));
        assert x in init;
      }
      InsertOrders(last, SortByPriority(init));
    }
  }

  lemma LastIsGreatest(chain: seq<Candidate>, x: Candidate)
    requires InOrder(chain) && x in chain
    ensures x.priority <= chain[|chain| - 1].priority
    ensures x.priority == chain[|chain| - 1].priority ==> x == chain[|chain| - 1]
  {
  }

  lemma InitMultiset(a: seq<Candidate>)
    requires a != []
    ensures multiset(a[..|a| - 1]) == multiset(a) - multiset{a[|a| - 1]}
  {
    SnocMultiset(a[..|a| - 1], a[|a| - 1]);
    assert a == a[..|a| - 1] + [a[|a| - 1]];
  }

  lemma SameLast(a: seq<Candidate>, b: seq<Candidate>)
    requires InOrder(a) && InOrder(b) && multiset(a) == multiset(b)
    ensures |a| == |b|
    ensures a != [] ==> a[|a| - 1] == b[|b| - 1]
  {
    assert |multiset(a)| == |a| && |multiset(b)| == |b|;
    if a != [] {
      var n := |a| - 1;
      assert a[n] in multiset(b) && b[n] in multiset(a);
      LastIsGreatest(a, b[n]);
      LastIsGreatest(b, a[n]);
    }
  }

  lemma SameInit(a: seq<Candidate>, b: seq<Candidate>)
    requires a != [] && b != [] && multiset(a) == multiset(b) && a[|a| - 1] == b[|b| - 1]
    ensures multiset(a[..|a| - 1]) == multiset(b[..|b| - 1])
  {
    InitMultiset(a);
    InitMultiset(b);
  }

  lemma InitInOrder(a: seq<Candidate>, n: nat)
    requires InOrder(a) && n <= |a|
    ensures InOrder(a[..n])
  {
  }

  /** Only one order of the same candidates is strictly increasing. */
  lemma {:induction false} UniqueOrder(a: seq<Candidate>, b: seq<Candidate>)
    requires InOrder(a) && InOrder(b) && multiset(a) == multiset(b)
    ensures a == b
  {
    hide InOrder;
    SameLast(a, b);
    if a != [] {
      var n := |a| - 1;
      SameInit(a, b);
      InitInOrder(a, n);
      InitInOrder(b, n);
      UniqueOrder(a[..n], b[..n]);
      assert a == a[..n] + [a[n]] && b == b[..n] + [b[n]];
    }
  }

  function Priorities(chain: seq<Candidate>): set<int> {
    set c | c in chain :: c.priority
  }

  lemma PriorityListed(chain: seq<Candidate>, p: int)
    ensures p in Priorities(chain) <==> exists i :: 0 <= i < |chain| && chain[i].priority == p
  {
    if i :| 0 <= i < |chain| && chain[i].priority == p {
      assert chain[i] in chain;
    }
  }

  lemma PrioritiesSnoc(init: seq<Candidate>, last: Candidate)
    ensures Priorities(init + [last]) == Priorities(init) + {last.priority}
  {
    forall p ensures p in Priorities(init + [last]) <==> p in Priorities(init) + {last.priority} {
      PriorityListed(init, p);
      PriorityListed(init + [last], p);
      hide Priorities;
      if i :| 0 <= i < |init| && init[i].priority == p {
        assert (init + [last])[i] == init[i];
      }
      assert (init + [last])[|init|] == last;
    }
  }

  lemma DistinctSnoc(init: seq<Candidate>, last: Candidate)
    ensures DistinctPriorities(init + [last]) <==> DistinctPriorities(init) && last.priority !in Priorities(init)
  {
    var chain := init + [last];
    PriorityListed(init, last.priority);
    hide Priorities;
    assert chain[..|init|] == init;
    if i :| 0 <= i < |init| && init[i].priority == last.priority {
      assert chain[i].priority == chain[|init|].priority;
    }
    if DistinctPriorities(chain) {
      forall i, j | 0 <= i < j < |init| ensures init[i].priority != init[j].priority {
        assert chain[i].priority != chain[j].priority;
      }
    }
  }

  lemma {:induction false} CountsDistinct(chain: seq<Candidate>)
    ensures |Priorities(chain)| <= |chain|
    ensures |Priorities(chain)| == |chain| <==> DistinctPriorities(chain)
  {
    if chain == [] {
      assert Priorities(chain) == {};
    } else {
      hide Priorities, DistinctPriorities;
      var init, last := chain[..|chain| - 1], chain[|chain| - 1];
      assert chain == init + [last];
      PrioritiesSnoc(init, last);
      DistinctSnoc(init, last);
      CountsDistinct(init);
    }
  }

  /** Equal priorities are an error; otherwise the chain is put in priority order. */
  function Load(chain: seq<Candidate>): Result<seq<Candidate>, Error> {
    if |Priorities(chain)| != |chain| then Err(DuplicatePriorities) else Ok(SortByPriority(chain))
  }

  lemma LoadOrders(chain: seq<Candidate>)
    ensures Load(chain).Ok? <==> DistinctPriorities(chain)
    ensures Load(chain).Ok? ==> InOrder(Load(chain).value) && multiset(Load(chain).value) == multiset(chain)
  {
    CountsDistinct(chain);
    SortPermutes(chain);
    if DistinctPriorities(chain) {
      SortOrders(chain);
    }
  }

  /** What the host is known to offer for the dependency. */
  datatype Observed = Present | Missing | Impossible | Failed | Provisionable

  function Early(status: Status, ready: bool): Decision {
    Decision(status, None, ready, [], [], [])
  }

  function Resolve(provider: Provider, facts: Facts, unsupported: bool, observed: Observed,
      chain: seq<Candidate>): Result<Decision, Error> {
    match Load(chain)
    case Err(e) => Err(e)
    case Ok(ordered) =>
      if unsupported || facts.distribution.None? then Ok(Early(OutOfContract, false))
      else
        match observed
        case Present => Ok(Early(AlreadyPresent, true))
        case Missing => Ok(Early(ObservationMissing, false))
        case Impossible => Ok(Early(NoSafeRoute, false))
        case Failed => Ok(Early(PreparationFailed, false))
        case Provisionable => Decide(provider, facts, ordered)
  }

  /** The order in which the manifest lists the methods does not matter. */
  lemma OrderOfMethodsIrrelevant(provider: Provider, facts: Facts, unsupported: bool, observed: Observed,
      a: seq<Candidate>, b: seq<Candidate>)
    requires multiset(a) == multiset(b)
    ensures Resolve(provider, facts, unsupported, observed, a) == Resolve(provider, facts, unsupported, observed, b)
  {
    hide Decide, SortByPriority;
    assert |a| == |multiset(a)| && |b| == |multiset(b)|;
    assert Priorities(a) == Priorities(b) by {
      forall c ensures c in a <==> c in b {
        assert c in multiset(a) <==> c in multiset(b);
      }
    }
    LoadOrders(a);
    LoadOrders(b);
    if Load(a).Ok? {
      UniqueOrder(Load(a).value, Load(b).value);
    }
  }

  // ---------------------------------------------------------------------
  // The loops
  // ---------------------------------------------------------------------

  method AllPackagesExist(provider: Provider, c: Candidate, target: string) returns (r: Checked)
    ensures r == Packages(provider, c, target, c.packages, [])
  {
    var observations := [];
    assert c.packages[0..] == c.packages;
    for i := 0 to |c.packages|
      invariant Packages(provider, c, target, c.packages, []) == Packages(provider, c, target, c.packages[i..], observations)
    {
      assert c.packages[i..][1..] == c.packages[i + 1..];
      var status := provider(PackageExists, c, target, Some(c.packages[i]));
      observations := observations + [Observation(c.id, PackageExists, Some(c.packages[i]), status)];
      if status != Available {
        return Checked(status, observations);
      }
    }
    r := Checked(Available, observations);
  }

  predicate Exists(provider: Provider, c: Candidate, target: string, name: string) {
    provider(PackageExists, c, target, Some(name)) == Available
  }

  /** All packages exist, or the status is that of the first one that does not. */
  lemma {:induction false} PackagesStatus(provider: Provider, c: Candidate, target: string, names: seq<string>,
      seen: seq<Observation>)
    ensures var r := Packages(provider, c, target, names, seen);
            if r.status == Available then forall i :: 0 <= i < |names| ==> Exists(provider, c, target, names[i])
            else
              exists k :: && 0 <= k < |names| && provider(PackageExists, c, target, Some(names[k])) == r.status
                          && forall i :: 0 <= i < k ==> Exists(provider, c, target, names[i])
  {
    if names != [] && Exists(provider, c, target, names[0]) {
      var all := seen + [Observation(c.id, PackageExists, Some(names[0]), Available)];
      PackagesStatus(provider, c, target, names[1..], all);
      var r := Packages(provider, c, target, names[1..], all);
      if r.status != Available {
        var k :| && 0 <= k < |names| - 1 && provider(PackageExists, c, target, Some(names[1..][k])) == r.status
                 && forall i :: 0 <= i < k ==> Exists(provider, c, target, names[1..][i]);
        assert names[k + 1] == names[1..][k];
        forall i | 0 <= i < k + 1 ensures Exists(provider, c, target, names[i]) {
          assert i == 0 || names[i] == names[1..][i - 1];
        }
      } else {
        forall i | 0 <= i < |names| ensures Exists(provider, c, target, names[i]) {
          assert i == 0 || names[i] == names[1..][i - 1];
        }
      }
    }
  }

  method LoadRequirement(chain: seq<Candidate>) returns (r: Result<seq<Candidate>, Error>)
    ensures r.Ok? <==> DistinctPriorities(chain)
    ensures r.Ok? ==> InOrder(r.value) && multiset(r.value) == multiset(chain)
    ensures r == Load(chain)
  {
    LoadOrders(chain);
    if |Priorities(chain)| != |chain| {
      return Err(DuplicatePriorities);
    }
    var sorted := [];
    for i := 0 to |chain|
      invariant sorted == SortByPriority(chain[..i])
    {
      assert chain[..i + 1][..i] == chain[..i];
      sorted := Insert(chain[i], sorted);
    }
    assert chain[..|chain|] == chain;
    r := Ok(sorted);
  }

  /** The resolver's loop over the chain, with its lists of rejections and observations. */
  method ResolveChain(provider: Provider, facts: Facts, chain: seq<Candidate>) returns (r: Result<Decision, Error>)
    ensures r == Decide(provider, facts, chain)
  {
    hide Evaluate;
    var rejections, all := [], [];
    for i := 0 to |chain|
      invariant Decide(provider, facts, chain) == Choose(provider, facts, chain[i..], rejections, all)
    {
      var c := chain[i];
      assert chain[i..][0] == c && chain[i..][1..] == chain[i + 1..];
      var e := Evaluate(provider, facts, c);
      EvaluationCases(e);
      if e.Broken? {
        return Err(e.error);
      }
      all := all + Seen(e);
      if Skipped(e) {
        rejections := rejections + [Skip(c, e)];
      } else if Indeterminate(e) {
        rejections := rejections + [Skip(c, e)];
        var lower := RejectLower(chain[i + 1..], c.id);
        return Ok(Decision(AvailabilityUnknown, None, false, rejections + lower, Seen(e), all));
      } else {
        var ready := ExecutionReady(c);
        return Ok(Decision(if ready then MethodSelected else RecipeNotImplemented, Some(c), ready, rejections, Seen(e), all));
      }
    }
    r := Ok(Decision(NoSafeRoute, None, false, rejections, [], all));
  }

  method RejectLower(lower: seq<Candidate>, blocker: string) returns (rejections: seq<Rejection>)
    ensures rejections == NotReached(lower, blocker)
  {
    rejections := [];
    for i := 0 to |lower|
      invariant |rejections| == i && forall k :: 0 <= k < i ==> rejections[k] == NotReached(lower, blocker)[k]
    {
      rejections := rejections + [Rejection(lower[i].id, lower[i].kind, NotEvaluated(blocker))];
    }
  }
}
