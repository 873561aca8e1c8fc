/**
 * What a resolution means in the manifest's own terms: which candidate is taken,
 * passed over or stops the chain, and for which reason.
 */
module ResolutionMeaning {
  import opened Common
  import opened DependencyResolution

  // ---------------------------------------------------------------------
  // The host is in the candidate's scope
  // ---------------------------------------------------------------------

  /** The target the candidate is to be looked up for on this host. */
  predicate InScope(facts: Facts, c: Candidate, target: string) {
    && facts.family.Some? && facts.family.value in c.families
    && facts.architecture.Some? && facts.architecture.value in c.architectures
    && match facts.model
       case Rolling => c.identity == RollingDistribution && facts.distribution == Some(target) && target in c.rolling
       case Stable =>
         && facts.release.Some? && facts.release.value in c.stable
         && ((c.identity == MappedBase && facts.base == Some(target) && target != "") ||
             (c.identity == ResolvedRelease && facts.release == Some(target)))
       case UnknownModel => false
  }

  lemma TargetMeans(facts: Facts, c: Candidate, target: string)
    ensures Target(facts, c) == Ok(target) <==> InScope(facts, c, target)
  {
  }

  /** Why a candidate is out of scope: the first condition that fails. */
  predicate ScopeReason(facts: Facts, c: Candidate, reason: Reason) {
    match reason
    case FamilyNotApplicable => !Has(c.families, facts.family)
    case ArchitectureNotSupported => Has(c.families, facts.family) && !Has(c.architectures, facts.architecture)
    case RollingIdentityRequired => facts.model.Rolling? && c.identity != RollingDistribution
    case RollingNotTargeted => facts.model.Rolling? && c.identity == RollingDistribution && !Has(c.rolling, facts.distribution)
    case ModelUnknown => facts.model.UnknownModel?
    case ReleaseUnknown => facts.model.Stable? && facts.release.None?
    case ReleaseNotTargeted => facts.model.Stable? && facts.release.Some? && facts.release.value !in c.stable
    case BaseAbsent => facts.model.Stable? && c.identity == MappedBase && (facts.base.None? || facts.base.value == "")
    case StableCannotRoll => facts.model.Stable? && c.identity == RollingDistribution
    case IdentityUnknown => facts.model.Stable? && c.identity == UnknownIdentity
    case MetadataIncomplete => false
    case NotAvailable(_) => false
    case NotEvaluated(_) => false
  }

  lemma ScopeReasons(facts: Facts, c: Candidate)
    ensures Target(facts, c).Err? ==> ScopeReason(facts, c, Target(facts, c).error)
  {
  }

  // ---------------------------------------------------------------------
  // The candidate is available
  // ---------------------------------------------------------------------

  /** One question to the provider, and the operation it is noted under. */
  datatype Question = Question(ask: Operation, package: Option<string>, note: Operation)

  /** What is asked about a candidate, in order. */
  function Questions(c: Candidate): seq<Question> {
    match c.kind
    case PackageExact => PackageQuestions(c.packages)
    case ExternalRepo =>
      [Question(RepositorySupports, None, RepositorySupports)]
      + (if c.bootstrap.Some? then [Question(PackageExists, c.bootstrap, RepositoryPackage)] else [])
      + PackageQuestions(c.packages)
    case PinnedArtifact => [Question(ArtifactExists, None, ArtifactExists), Question(IntegrityAvailable, None, IntegrityAvailable)]
    case SourceBuild => [Question(RevisionAvailable, None, RevisionAvailable)]
    case UnknownKind => []
  }

  function PackageQuestions(names: seq<string>): seq<Question> {
    seq(|names|, i requires 0 <= i < |names| => Question(PackageExists, Some(names[i]), PackageExists))
  }

  function Reply(provider: Provider, c: Candidate, target: string, q: Question): Availability {
    provider(q.ask, c, target, q.package)
  }

  /** The questions with their answers, as they are noted. */
  function Notes(provider: Provider, c: Candidate, target: string, questions: seq<Question>): seq<Observation> {
    seq(|questions|, i requires 0 <= i < |questions| =>
      Observation(c.id, questions[i].note, questions[i].package, Reply(provider, c, target, questions[i])))
  }

  /** All answers are "available". */
  ghost predicate AllAvailable(provider: Provider, c: Candidate, target: string, questions: seq<Question>) {
    forall i :: 0 <= i < |questions| ==> Reply(provider, c, target, questions[i]) == Available
  }

  /** Question `k` is the first whose answer is not "available". */
  ghost predicate ProblemAt(provider: Provider, c: Candidate, target: string, questions: seq<Question>, status: Availability, k: nat) {
    k < |questions| && Reply(provider, c, target, questions[k]) == status && AllAvailable(provider, c, target, questions[..k])
  }

  /** The first answer that is not "available" is this one. */
  ghost predicate FirstProblem(provider: Provider, c: Candidate, target: string, questions: seq<Question>, status: Availability) {
    status != Available && exists k: nat :: ProblemAt(provider, c, target, questions, status, k)
  }

  /** The questions were asked up to the first problem, and each noted with its answer. */
  ghost predicate Settles(provider: Provider, c: Candidate, target: string, questions: seq<Question>, r: Checked) {
    if r.status == Available then
      AllAvailable(provider, c, target, questions) && r.observations == Notes(provider, c, target, questions)
    else
      exists k: nat :: && ProblemAt(provider, c, target, questions, r.status, k)
                       && r.observations == Notes(provider, c, target, questions[..k + 1])
  }

  lemma OneQuestion(provider: Provider, c: Candidate, target: string, q: Question)
    ensures Settles(provider, c, target, [q], Checked(Reply(provider, c, target, q), Notes(provider, c, target, [q])))
    ensures Notes(provider, c, target, [q]) == [Observation(c.id, q.note, q.package, Reply(provider, c, target, q))]
  {
    assert [q][..0] == [] && [q][0] == q && [q][..1] == [q];
    if Reply(provider, c, target, q) != Available {
      assert ProblemAt(provider, c, target, [q], Reply(provider, c, target, q), 0);
    }
  }

  lemma NothingAsked(provider: Provider, c: Candidate, target: string)
    ensures Settles(provider, c, target, [], Checked(Available, []))
  {
  }

  lemma NotesConcat(provider: Provider, c: Candidate, target: string, a: seq<Question>, b: seq<Question>)
    ensures Notes(provider, c, target, a + b) == Notes(provider, c, target, a) + Notes(provider, c, target, b)
  {
  }

  lemma BothAvailable(provider: Provider, c: Candidate, target: string, a: seq<Question>, b: seq<Question>)
    requires AllAvailable(provider, c, target, a) && AllAvailable(provider, c, target, b)
    ensures AllAvailable(provider, c, target, a + b)
  {
  }

  /** Further questions are asked only when the first ones raise no problem. */
  lemma SettlesConcat(provider: Provider, c: Candidate, target: string, a: seq<Question>, b: seq<Question>, x: Checked, y: Checked)
    requires Settles(provider, c, target, a, x) && (x.status == Available ==> Settles(provider, c, target, b, y))
    ensures Settles(provider, c, target, a + b, if x.status == Available then Checked(y.status, x.observations + y.observations) else x)
  {
    var all := a + b;
    if x.status != Available {
      var k: nat :| ProblemAt(provider, c, target, a, x.status, k) && x.observations == Notes(provider, c, target, a[..k + 1]);
      assert all[..k] == a[..k] && all[k] == a[k] && all[..k + 1] == a[..k + 1];
      assert ProblemAt(provider, c, target, all, x.status, k);
    } else if y.status != Available {
      var k: nat :| ProblemAt(provider, c, target, b, y.status, k) && y.observations == Notes(provider, c, target, b[..k + 1]);
      assert all[|a| + k] == b[k] && all[..|a| + k] == a + b[..k] && all[..|a| + k + 1] == a + b[..k + 1];
      BothAvailable(provider, c, target, a, b[..k]);
      NotesConcat(provider, c, target, a, b[..k + 1]);
      assert ProblemAt(provider, c, target, all, y.status, |a| + k);
    } else {
      BothAvailable(provider, c, target, a, b);
      NotesConcat(provider, c, target, a, b);
    }
  }

  lemma {:induction false} PackagesSettle(provider: Provider, c: Candidate, target: string, names: seq<string>, seen: seq<Observation>)
      returns (asked: Checked)
    ensures Settles(provider, c, target, PackageQuestions(names), asked)
    ensures Packages(provider, c, target, names, seen) == Checked(asked.status, seen + asked.observations)
    decreases |names|
  {
    if names == [] {
      asked := Checked(Available, []);
    } else {
      var q := Question(PackageExists, Some(names[0]), PackageExists);
      var status := provider(PackageExists, c, target, Some(names[0]));
      var one := [Observation(c.id, PackageExists, Some(names[0]), status)];
      OneQuestion(provider, c, target, q);
      var rest := PackagesSettle(provider, c, target, names[1..], seen + one);
      assert PackageQuestions(names) == [q] + PackageQuestions(names[1..]);
      hide Settles, Notes;
      SettlesConcat(provider, c, target, [q], PackageQuestions(names[1..]), Checked(status, one), rest);
      asked := if status == Available then Checked(rest.status, one + rest.observations) else Checked(status, one);
      assert (seen + one) + rest.observations == seen + (one + rest.observations);
    }
  }

  lemma RepositorySettles(provider: Provider, c: Candidate, target: string)
    requires c.kind == ExternalRepo && target in c.compatibleTargets
    ensures Settles(provider, c, target, Questions(c), Repository(provider, c, target))
  {
    var repo := Question(RepositorySupports, None, RepositorySupports);
    var boot := if c.bootstrap.Some? then [Question(PackageExists, c.bootstrap, RepositoryPackage)] else [];
    var packages := PackageQuestions(c.packages);
    assert Questions(c) == ([repo] + boot) + packages;
    OneQuestion(provider, c, target, repo);
    NothingAsked(provider, c, target);
    var first := Checked(Reply(provider, c, target, repo), Notes(provider, c, target, [repo]));
    var second := Checked(Available, []);
    if c.bootstrap.Some? {
      OneQuestion(provider, c, target, boot[0]);
      second := Checked(Reply(provider, c, target, boot[0]), Notes(provider, c, target, [boot[0]]));
    }
    hide Settles, Packages, Notes;
    SettlesConcat(provider, c, target, [repo], boot, first, second);
    var both := if first.status == Available then Checked(second.status, first.observations + second.observations) else first;
    var asked := PackagesSettle(provider, c, target, c.packages, both.observations);
    SettlesConcat(provider, c, target, [repo] + boot, packages, both, asked);
    assert first.observations + [] == first.observations;
  }

  lemma ArtifactSettles(provider: Provider, c: Candidate, target: string)
    requires c.kind == PinnedArtifact
    ensures Settles(provider, c, target, Questions(c), Artifact(provider, c, target))
  {
    var exists_ := Question(ArtifactExists, None, ArtifactExists);
    var integrity := Question(IntegrityAvailable, None, IntegrityAvailable);
    OneQuestion(provider, c, target, exists_);
    OneQuestion(provider, c, target, integrity);
    hide Settles, Notes;
    assert Questions(c) == [exists_] + [integrity];
    SettlesConcat(provider, c, target, [exists_], [integrity],
                  Checked(Reply(provider, c, target, exists_), Notes(provider, c, target, [exists_])),
                  Checked(Reply(provider, c, target, integrity), Notes(provider, c, target, [integrity])));
  }

  lemma {:induction false} MatchingNone(assets: seq<string>, architecture: Option<string>)
    ensures Matching(assets, architecture) == 0 <==> forall i :: 0 <= i < |assets| ==> Some(assets[i]) != architecture
  {
    if assets != [] {
      MatchingNone(assets[1..], architecture);
      assert forall i :: 0 < i < |assets| ==> assets[i] == assets[1..][i - 1];
      if Matching(assets, architecture) == 0 {
        forall i | 0 <= i < |assets| ensures Some(assets[i]) != architecture {
          assert i == 0 || assets[i] == assets[1..][i - 1];
        }
      }
    }
  }

  /** Exactly one asset is for the host's architecture. */
  ghost predicate OneMatch(assets: seq<string>, architecture: Option<string>) {
    exists i: nat :: OnlyAt(assets, architecture, i)
  }

  ghost predicate OnlyAt(assets: seq<string>, architecture: Option<string>, i: nat) {
    && i < |assets| && Some(assets[i]) == architecture
    && forall j :: 0 <= j < |assets| && Some(assets[j]) == architecture ==> j == i
  }

  lemma OneMatchCons(first: string, rest: seq<string>, architecture: Option<string>)
    ensures OneMatch([first] + rest, architecture) <==>
            if Some(first) == architecture then forall i :: 0 <= i < |rest| ==> Some(rest[i]) != architecture
            else OneMatch(rest, architecture)
  {
    var assets := [first] + rest;
    assert forall i :: 0 <= i < |rest| ==> assets[i + 1] == rest[i];
    if OneMatch(assets, architecture) {
      var i: nat :| OnlyAt(assets, architecture, i);
      if Some(first) == architecture {
        assert assets[0] == first;
        forall j | 0 <= j < |rest| ensures Some(rest[j]) != architecture {
          assert assets[j + 1] == rest[j];
        }
      } else {
        assert OnlyAt(rest, architecture, i - 1);
      }
    }
    if Some(first) != architecture && OneMatch(rest, architecture) {
      var i: nat :| OnlyAt(rest, architecture, i);
      assert OnlyAt(assets, architecture, i + 1);
    }
    if Some(first) == architecture && forall i :: 0 <= i < |rest| ==> Some(rest[i]) != architecture {
      assert OnlyAt(assets, architecture, 0);
    }
  }

  lemma {:induction false} MatchingOne(assets: seq<string>, architecture: Option<string>)
    ensures Matching(assets, architecture) == 1 <==> OneMatch(assets, architecture)
  {
    if assets != [] {
      MatchingOne(assets[1..], architecture);
      MatchingNone(assets[1..], architecture);
      hide OneMatch;
      assert assets == [assets[0]] + assets[1..];
      OneMatchCons(assets[0], assets[1..], architecture);
    }
  }

  // ---------------------------------------------------------------------
  // What becomes of a candidate
  // ---------------------------------------------------------------------

  /** In scope, with complete metadata, and everything it needs there. */
  ghost predicate Fits(provider: Provider, facts: Facts, c: Candidate) {
    && c.metadataComplete
    && exists target :: && InScope(facts, c, target) && Servable(facts, c, target)
                        && AllAvailable(provider, c, target, Questions(c))
  }

  /** A known kind; a repository that supports the target; an artifact with one asset for the host. */
  ghost predicate Servable(facts: Facts, c: Candidate, target: string) {
    match c.kind
    case ExternalRepo => target in c.compatibleTargets
    case PinnedArtifact => OneMatch(c.assets, facts.architecture)
    case UnknownKind => false
    case PackageExact => true
    case SourceBuild => true
  }

  /** Out of scope, without metadata, or definitely not there. */
  ghost predicate PassedOver(provider: Provider, facts: Facts, c: Candidate) {
    || (forall target :: !InScope(facts, c, target))
    || !c.metadataComplete
    || exists target :: && InScope(facts, c, target)
                        && ((c.kind == ExternalRepo && target !in c.compatibleTargets) ||
                            (Servable(facts, c, target) && FirstProblem(provider, c, target, Questions(c), Unavailable)))
  }

  /** In scope and with metadata, but the answers do not settle whether it is there. */
  ghost predicate Unclear(provider: Provider, facts: Facts, c: Candidate) {
    && c.metadataComplete
    && exists target :: && InScope(facts, c, target)
                        && (c.kind == UnknownKind ||
                            (Servable(facts, c, target) &&
                             exists status :: Blocks(status) && FirstProblem(provider, c, target, Questions(c), status)))
  }

  /** An artifact in scope with no asset or several for the host. */
  ghost predicate Ambiguous(facts: Facts, c: Candidate) {
    && c.metadataComplete && c.kind == PinnedArtifact && !OneMatch(c.assets, facts.architecture)
    && exists target :: InScope(facts, c, target)
  }

  lemma OneTarget(facts: Facts, c: Candidate, a: string, b: string)
    requires InScope(facts, c, a) && InScope(facts, c, b)
    ensures a == b
  {
  }

  lemma CheckSettles(provider: Provider, c: Candidate, target: string, facts: Facts)
    ensures var r := Check(provider, c, target, facts);
            if c.kind == PinnedArtifact && !OneMatch(c.assets, facts.architecture) then r.Err?
            else r.Ok? && if Servable(facts, c, target) then Settles(provider, c, target, Questions(c), r.value)
                          else r.value.status == if c.kind == ExternalRepo then Unavailable else MalformedResponse
  {
    hide Settles, Packages, Repository, Artifact, Matching, OneMatch;
    MatchingOne(c.assets, facts.architecture);
    match c.kind
    case PackageExact =>
      var asked := PackagesSettle(provider, c, target, c.packages, []);
      assert [] + asked.observations == asked.observations;
    case ExternalRepo =>
      if target in c.compatibleTargets {
        RepositorySettles(provider, c, target);
      } else {
        Incompatible(provider, c, target);
      }
    case PinnedArtifact => ArtifactSettles(provider, c, target);
    case SourceBuild => OneQuestion(provider, c, target, Question(RevisionAvailable, None, RevisionAvailable));
    case UnknownKind =>
  }

  lemma Incompatible(provider: Provider, c: Candidate, target: string)
    requires target !in c.compatibleTargets
    ensures Repository(provider, c, target).status == Unavailable
  {
  }

  lemma OneProblem(provider: Provider, c: Candidate, target: string, questions: seq<Question>, x: Availability, k: nat, y: Availability, l: nat)
    requires x != Available && y != Available
    requires ProblemAt(provider, c, target, questions, x, k) && ProblemAt(provider, c, target, questions, y, l)
    ensures x == y
  {
    assert forall i :: 0 <= i < l ==> questions[..l][i] == questions[i];
    assert forall i :: 0 <= i < k ==> questions[..k][i] == questions[i];
  }

  /** What the status says about the answers. */
  lemma StatusSays(provider: Provider, c: Candidate, target: string, questions: seq<Question>, r: Checked)
    requires Settles(provider, c, target, questions, r)
    ensures AllAvailable(provider, c, target, questions) <==> r.status == Available
    ensures forall x :: FirstProblem(provider, c, target, questions, x) <==> x == r.status && x != Available
  {
    forall x ensures FirstProblem(provider, c, target, questions, x) <==> x == r.status && x != Available {
      if FirstProblem(provider, c, target, questions, x) {
        var k: nat :| ProblemAt(provider, c, target, questions, x, k);
        if r.status != Available {
          var l: nat :| ProblemAt(provider, c, target, questions, r.status, l);
          OneProblem(provider, c, target, questions, x, k, r.status, l);
        }
      }
    }
  }

  /** The evaluation of a candidate, in the manifest's terms. */
  lemma EvaluationMeans(provider: Provider, facts: Facts, c: Candidate)
    ensures var e := Evaluate(provider, facts, c);
            && (Passes(e) <==> Fits(provider, facts, c)) && (Skipped(e) <==> PassedOver(provider, facts, c))
            && (Indeterminate(e) <==> Unclear(provider, facts, c)) && (e.Broken? <==> Ambiguous(facts, c))
  {
    var scope := Target(facts, c);
    if scope.Err? {
      forall target ensures !InScope(facts, c, target) {
        TargetMeans(facts, c, target);
      }
    } else {
      TargetMeans(facts, c, scope.value);
      forall target | InScope(facts, c, target) ensures target == scope.value {
        OneTarget(facts, c, target, scope.value);
      }
      if c.metadataComplete {
        CheckSettles(provider, c, scope.value, facts);
        AnswerMeans(provider, facts, c, scope.value);
      }
    }
  }

  lemma AnswerMeans(provider: Provider, facts: Facts, c: Candidate, target: string)
    requires c.metadataComplete && Target(facts, c) == Ok(target) && InScope(facts, c, target)
    requires forall t :: InScope(facts, c, t) ==> t == target
    ensures var e := Evaluate(provider, facts, c);
            && (Passes(e) <==> Fits(provider, facts, c)) && (Skipped(e) <==> PassedOver(provider, facts, c))
            && (Indeterminate(e) <==> Unclear(provider, facts, c)) && (e.Broken? <==> Ambiguous(facts, c))
  {
    hide InScope, Target, OneMatch, Questions, Check, AllAvailable, FirstProblem, Settles;
    CheckSettles(provider, c, target, facts);
    var r := Check(provider, c, target, facts);
    if r.Ok? && Servable(facts, c, target) {
      StatusSays(provider, c, target, Questions(c), r.value);
    }
  }

  /** What is noted about a candidate that was asked about: its questions up to the first problem, with the answers. */
  lemma NotedAnswers(provider: Provider, facts: Facts, c: Candidate, target: string)
    requires c.metadataComplete && InScope(facts, c, target) && Servable(facts, c, target)
    ensures var e := Evaluate(provider, facts, c);
            e.Answered? && Settles(provider, c, target, Questions(c), e.checked)
  {
    hide Check, InScope, Questions, Settles, OneMatch;
    TargetMeans(facts, c, target);
    CheckSettles(provider, c, target, facts);
  }

  // ---------------------------------------------------------------------
  // The decision
  // ---------------------------------------------------------------------

  ghost predicate AllPassedOver(provider: Provider, facts: Facts, chain: seq<Candidate>) {
    forall i :: 0 <= i < |chain| ==> PassedOver(provider, facts, chain[i])
  }

  lemma SkippedArePassedOver(provider: Provider, facts: Facts, chain: seq<Candidate>)
    ensures AllSkipped(provider, facts, chain) <==> AllPassedOver(provider, facts, chain)
  {
    hide PassedOver, Evaluate, Fits, Unclear, Ambiguous, Skipped;
    forall i | 0 <= i < |chain| ensures Skipped(Evaluate(provider, facts, chain[i])) <==> PassedOver(provider, facts, chain[i]) {
      EvaluationMeans(provider, facts, chain[i]);
    }
  }

  /**
   * A candidate is selected exactly when it is in scope, its metadata is complete and
   * everything it needs is available, and everything above it was passed over.
   */
  lemma SelectedMeans(provider: Provider, facts: Facts, chain: seq<Candidate>, k: nat)
    requires InOrder(chain) && k < |chain|
    ensures var d := Decide(provider, facts, chain);
            d.Ok? && d.value.selected == Some(chain[k]) <==>
            Fits(provider, facts, chain[k]) && AllPassedOver(provider, facts, chain[..k])
  {
    hide Decide, InOrder, Fits, AllPassedOver, AllSkipped, Evaluate, PassedOver, Unclear, Ambiguous;
    SelectsFirstPassing(provider, facts, chain, k);
    EvaluationMeans(provider, facts, chain[k]);
    SkippedArePassedOver(provider, facts, chain[..k]);
  }

  /** What is selected can be carried out exactly when it is a source build with an implemented recipe. */
  lemma ReadyMeans(provider: Provider, facts: Facts, chain: seq<Candidate>)
    ensures var d := Decide(provider, facts, chain);
            d.Ok? && d.value.selected.Some? ==>
              var c := d.value.selected.value;
              if c.kind.SourceBuild? && c.implemented then d.value.status == MethodSelected && d.value.ready
              else d.value.status == RecipeNotImplemented && !d.value.ready
  {
    hide Decide;
    StatusMeans(provider, facts, chain);
  }

  /** No route is found exactly when every candidate was passed over; the chain is unclear exactly at the first unclear one. */
  lemma UnselectedMeans(provider: Provider, facts: Facts, chain: seq<Candidate>)
    ensures var d := Decide(provider, facts, chain);
            && (d.Ok? && d.value.status == NoSafeRoute <==> AllPassedOver(provider, facts, chain))
            && (d.Ok? && d.value.status == AvailabilityUnknown <==>
                  exists k :: 0 <= k < |chain| && Unclear(provider, facts, chain[k]) && AllPassedOver(provider, facts, chain[..k]))
            && (d.Err? <==> exists k :: 0 <= k < |chain| && Ambiguous(facts, chain[k]) && AllPassedOver(provider, facts, chain[..k]))
  {
    hide Evaluate, Choose, Fits, PassedOver, Unclear, Ambiguous, AllPassedOver;
    SkippedArePassedOver(provider, facts, chain);
    if AllSkipped(provider, facts, chain) {
      ChooseNone(provider, facts, chain, [], []);
      forall k | 0 <= k < |chain| ensures !Unclear(provider, facts, chain[k]) && !Ambiguous(facts, chain[k]) {
        EvaluationMeans(provider, facts, chain[k]);
        EvaluationCases(Evaluate(provider, facts, chain[k]));
      }
    } else {
      var k := SomeoneDecides(provider, facts, chain);
      ChooseAt(provider, facts, chain, [], [], k);
      EvaluationMeans(provider, facts, chain[k]);
      EvaluationCases(Evaluate(provider, facts, chain[k]));
      SkippedArePassedOver(provider, facts, chain[..k]);
      forall j | 0 <= j < |chain| && AllPassedOver(provider, facts, chain[..j]) && (Unclear(provider, facts, chain[j]) || Ambiguous(facts, chain[j]))
        ensures j == k
      {
        SkippedArePassedOver(provider, facts, chain[..j]);
        EvaluationMeans(provider, facts, chain[j]);
        EvaluationCases(Evaluate(provider, facts, chain[j]));
        OneDecides(provider, facts, chain, j, k);
      }
    }
  }

  // ---------------------------------------------------------------------
  // Why the others were not taken
  // ---------------------------------------------------------------------

  /** The reason recorded for a candidate that was looked at. */
  ghost predicate RightReason(provider: Provider, facts: Facts, c: Candidate, reason: Reason) {
    match reason
    case MetadataIncomplete => !c.metadataComplete && exists target :: InScope(facts, c, target)
    case NotAvailable(status) => status != Available && c.metadataComplete && exists target :: InScope(facts, c, target)
    case NotEvaluated(_) => false
    case _ => ScopeReason(facts, c, reason)
  }

  lemma SkipReason(provider: Provider, facts: Facts, c: Candidate)
    ensures var e := Evaluate(provider, facts, c);
            Skipped(e) || Indeterminate(e) ==>
              Skip(c, e).id == c.id && Skip(c, e).kind == c.kind && RightReason(provider, facts, c, Skip(c, e).reason)
  {
    ScopeReasons(facts, c);
    if Target(facts, c).Ok? {
      TargetMeans(facts, c, Target(facts, c).value);
    }
    hide Target, Check, InScope;
  }

  ghost predicate Rejects(provider: Provider, facts: Facts, c: Candidate, r: Rejection) {
    r.id == c.id && r.kind == c.kind && RightReason(provider, facts, c, r.reason)
  }

  /** Rejections for the candidates looked at, then for those below a blocker. */
  ghost predicate RejectionsFor(provider: Provider, facts: Facts, chain: seq<Candidate>, rejected: seq<Rejection>, done: nat) {
    && done <= |rejected| <= |chain|
    && (forall i :: 0 <= i < done ==> Rejects(provider, facts, chain[i], rejected[i]))
    && (forall i :: done <= i < |rejected| ==>
          done > 0 && rejected[i] == Rejection(chain[i].id, chain[i].kind, NotEvaluated(chain[done - 1].id)))
  }

  lemma {:induction false} ChooseRejects(provider: Provider, facts: Facts, whole: seq<Candidate>, n: nat,
      rejected: seq<Rejection>, observed: seq<Observation>)
    requires n <= |whole| && |rejected| == n && RejectionsFor(provider, facts, whole, rejected, n)
    ensures var d := Choose(provider, facts, whole[n..], rejected, observed);
            d.Ok? ==> exists done :: RejectionsFor(provider, facts, whole, d.value.rejected, done)
    decreases |whole| - n
  {
    hide Evaluate, RightReason;
    if n < |whole| {
      var c := whole[n];
      assert whole[n..][0] == c && whole[n..][1..] == whole[n + 1..];
      var e := Evaluate(provider, facts, c);
      EvaluationCases(e);
      SkipReason(provider, facts, c);
      if Skipped(e) {
        ChooseRejects(provider, facts, whole, n + 1, rejected + [Skip(c, e)], observed + Seen(e));
      } else if Indeterminate(e) {
        var all := rejected + [Skip(c, e)] + NotReached(whole[n + 1..], c.id);
        assert RejectionsFor(provider, facts, whole, all, n + 1);
      } else {
        assert RejectionsFor(provider, facts, whole, rejected, n);
      }
    } else {
      assert RejectionsFor(provider, facts, whole, rejected, n);
    }
  }

  /** Every rejection names its candidate and gives the right reason for it. */
  lemma RejectionsAreRight(provider: Provider, facts: Facts, chain: seq<Candidate>)
    ensures var d := Decide(provider, facts, chain);
            d.Ok? ==> exists done :: RejectionsFor(provider, facts, chain, d.value.rejected, done)
  {
    hide Choose;
    assert chain[0..] == chain;
    ChooseRejects(provider, facts, chain, 0, [], []);
  }

  /** What the host already offers decides before any candidate is looked at. */
  lemma ObservedDecides(provider: Provider, facts: Facts, unsupported: bool, observed: Observed, chain: seq<Candidate>)
    requires DistinctPriorities(chain) && (unsupported || facts.distribution.None? || !observed.Provisionable?)
    ensures var d := Resolve(provider, facts, unsupported, observed, chain);
            && d.Ok? && d.value.selected.None? && d.value.rejected == [] && d.value.allObservations == []
            && (d.value.ready <==> !unsupported && facts.distribution.Some? && observed.Present?)
            && d.value.status ==
               if unsupported || facts.distribution.None? then OutOfContract
               else match observed
                    case Present => AlreadyPresent
                    case Missing => ObservationMissing
                    case Impossible => NoSafeRoute
                    case Failed => PreparationFailed
                    case Provisionable => NoSafeRoute
  {
    LoadOrders(chain);
    hide Load, Decide;
  }
}
