/**
 The provider chain of a job: which adapters it has, the handler's fallback loop, and what the worker records.
 Every handler has the loop of handle_remove_bg.
 */
module Fallback {
  import opened Options
  import opened Ledger
  import opened Serial
  import opened Worker

  type Config = map<string, string>

  datatype Provider = Provider(status: string, adapterClass: string, config: Config, encryptedKey: string)

  // A row of job_type_providers; the rows come ordered by priority.
  datatype Link = Link(provider: nat, override: Config)

  datatype Adapter = Adapter(provider: nat, config: Config)

  // What the chain is built from. `decrypt` gives None where decrypt_value raises.
  datatype Setup = Setup(links: seq<Link>, providers: map<nat, Provider>, classes: set<string>, decrypt: string -> Option<string>)

  method BuildAdapters(s: Setup) returns (adapters: seq<Adapter>, providerIds: seq<nat>)
    ensures adapters == Chain(s, |s.links|)
    ensures exists from :: StandsFor(s, |s.links|, adapters, from)
    ensures |providerIds| == |adapters| && forall i :: 0 <= i < |adapters| ==> providerIds[i] == adapters[i].provider
  {
    adapters, providerIds := [], [];
    for i := 0 to |s.links|
      invariant adapters == Chain(s, i) && |providerIds| == |adapters|
      invariant forall k :: 0 <= k < |adapters| ==> providerIds[k] == adapters[k].provider
    {
      var link := s.links[i];
      if link.provider !in s.providers || s.providers[link.provider].status != "active" {
        continue;
      }
      var provider := s.providers[link.provider];
      if provider.adapterClass !in s.classes {
        continue;
      }
      var merged := provider.config + link.override;
      if provider.encryptedKey != "" && provider.encryptedKey != "not-needed" {
        var key := s.decrypt(provider.encryptedKey);
        if key.None? {
          continue;
        }
        merged := merged["api_key" := key.value];
      }
      adapters := adapters + [Adapter(link.provider, merged)];
      providerIds := providerIds + [link.provider];
    }
    ghost var from := ChainStandsFor(s, |s.links|);
    assert StandsFor(s, |s.links|, adapters, from);
  }

  predicate NeedsKey(p: Provider) {
    p.encryptedKey != "" && p.encryptedKey != "not-needed"
  }

  predicate Usable(s: Setup, link: Link) {
    && link.provider in s.providers && s.providers[link.provider].status == "active"
    && s.providers[link.provider].adapterClass in s.classes
    && (NeedsKey(s.providers[link.provider]) ==> s.decrypt(s.providers[link.provider].encryptedKey).Some?)
  }

  function AdapterOf(s: Setup, link: Link): Adapter
    requires Usable(s, link)
  {
    var p := s.providers[link.provider];
    var merged := p.config + link.override;
    Adapter(link.provider, if NeedsKey(p) then merged["api_key" := s.decrypt(p.encryptedKey).value] else merged)
  }

  // The adapters of the usable ones among the first n links
  function Chain(s: Setup, n: nat): seq<Adapter>
    requires n <= |s.links|
  {
    if n == 0 then []
    else if Usable(s, s.links[n - 1]) then Chain(s, n - 1) + [AdapterOf(s, s.links[n - 1])]
    else Chain(s, n - 1)
  }

  // The adapters of the first n links: from[k] is the link of adapter k, in the order of the links. A link has an
  // adapter if and only if its provider is known and active, its class is known, and a key that is needed decrypts.
  ghost predicate StandsFor(s: Setup, n: nat, adapters: seq<Adapter>, from: seq<nat>)
    requires n <= |s.links|
  {
    && |from| == |adapters|
    && (forall k, m :: 0 <= k < m < |from| ==> from[k] < from[m])
    && (forall i :: i in from <==>
          && 0 <= i < n && s.links[i].provider in s.providers
          && s.providers[s.links[i].provider].status == "active"
          && s.providers[s.links[i].provider].adapterClass in s.classes
          && (|| s.providers[s.links[i].provider].encryptedKey == ""
              || s.providers[s.links[i].provider].encryptedKey == "not-needed"
              || s.decrypt(s.providers[s.links[i].provider].encryptedKey).Some?))
    && (forall k :: 0 <= k < |from| ==> from[k] < n && Configured(s, adapters[k], s.links[from[k]]))
  }

  // The override wins over the provider's configuration, and the decrypted key over both.
  ghost predicate Configured(s: Setup, a: Adapter, link: Link) {
    && a.provider == link.provider && link.provider in s.providers
    && var p := s.providers[link.provider];
       var keyed := p.encryptedKey != "" && p.encryptedKey != "not-needed";
    && (keyed ==> s.decrypt(p.encryptedKey).Some? && "api_key" in a.config && a.config["api_key"] == s.decrypt(p.encryptedKey).value)
    && (forall name :: name in a.config <==> name in p.config || name in link.override || (keyed && name == "api_key"))
    && (forall name :: name in a.config && !(keyed && name == "api_key") ==>
          a.config[name] == if name in link.override then link.override[name] else p.config[name])
  }

  lemma AdapterIsConfigured(s: Setup, link: Link)
    requires Usable(s, link)
    ensures Configured(s, AdapterOf(s, link), link)
  {
  }

  lemma StandsAnother(s: Setup, n: nat, adapters: seq<Adapter>, from: seq<nat>)
    requires n < |s.links| && StandsFor(s, n, adapters, from) && Usable(s, s.links[n])
    ensures StandsFor(s, n + 1, adapters + [AdapterOf(s, s.links[n])], from + [n])
  {
    AdapterIsConfigured(s, s.links[n]);
    var from' := from + [n];
    assert forall k :: 0 <= k < |from| ==> from[k] in from;
    assert forall i :: i in from' <==> i in from || i == n;
  }

  lemma StandsAlike(s: Setup, n: nat, adapters: seq<Adapter>, from: seq<nat>)
    requires n < |s.links| && StandsFor(s, n, adapters, from) && !Usable(s, s.links[n])
    ensures StandsFor(s, n + 1, adapters, from)
  {
  }

  lemma {:induction false} ChainStandsFor(s: Setup, n: nat) returns (from: seq<nat>)
    requires n <= |s.links|
    ensures StandsFor(s, n, Chain(s, n), from)
  {
    from := [];
    if n > 0 {
      from := ChainStandsFor(s, n - 1);
      if Usable(s, s.links[n - 1]) {
        StandsAnother(s, n - 1, Chain(s, n - 1), from);
        from := from + [n - 1];
      } else {
        StandsAlike(s, n - 1, Chain(s, n - 1), from);
      }
    }
  }

  // Every usable link has its adapter in the chain, behind those of the usable links before it and no others; so
  // the chain is in priority order.
  lemma {:induction false} ChainKeepsPriority(s: Setup, i: nat, n: nat)
    requires i < n <= |s.links| && s.links[i].provider in s.providers
    requires var p := s.providers[s.links[i].provider];
             && p.status == "active" && p.adapterClass in s.classes
             && (p.encryptedKey == "" || p.encryptedKey == "not-needed" || s.decrypt(p.encryptedKey).Some?)
    ensures |Chain(s, i)| < |Chain(s, n)| && Configured(s, Chain(s, n)[|Chain(s, i)|], s.links[i])
    ensures Chain(s, n)[..|Chain(s, i)|] == Chain(s, i)
    decreases n
  {
    if i < n - 1 {
      ChainKeepsPriority(s, i, n - 1);
    } else {
      AdapterIsConfigured(s, s.links[i]);
    }
  }

  // --- The handler ---

  // How one provider's execute ends
  datatype Answer = Output(data: string) | ProviderError(code: string, message: string) | OtherError(message: string)

  // What each provider does when it is called
  type Behaviour = nat -> Answer

  datatype AttemptRecord = AttemptRecord(provider: nat, code: string, message: string)

  datatype Handled = Result(data: string) | AllProvidersFailed | Raised(message: string)

  class JobContext {
    const providers: seq<Adapter>
    var attempts: seq<AttemptRecord>

    constructor (providers: seq<Adapter>)
      ensures this.providers == providers && attempts == []
    {
      this.providers := providers;
      attempts := [];
    }

    method RecordAttempt(provider: nat, code: string, message: string)
      modifies this
      ensures attempts == old(attempts) + [AttemptRecord(provider, code, message)]
    {
      attempts := attempts + [AttemptRecord(provider, code, message)];
    }
  }

  // Provider k is the first whose call does not end in ProviderError.
  ghost predicate FirstToSettle(adapters: seq<Adapter>, b: Behaviour, k: nat) {
    && k < |adapters| && !b(adapters[k].provider).ProviderError?
    && forall i :: 0 <= i < k ==> b(adapters[i].provider).ProviderError?
  }

  ghost predicate AllFail(adapters: seq<Adapter>, b: Behaviour) {
    forall i :: 0 <= i < |adapters| ==> b(adapters[i].provider).ProviderError?
  }

  // The records are those of the first n providers, in order.
  ghost predicate Recorded(attempts: seq<AttemptRecord>, adapters: seq<Adapter>, n: nat, b: Behaviour) {
    && n == |attempts| <= |adapters|
    && forall i :: 0 <= i < n ==>
         var answer := b(adapters[i].provider);
         answer.ProviderError? && attempts[i] == AttemptRecord(adapters[i].provider, answer.code, answer.message)
  }

  method Handle(ctx: JobContext, b: Behaviour) returns (r: Handled)
    requires ctx.attempts == []
    modifies ctx
    ensures r.AllProvidersFailed? <==> AllFail(ctx.providers, b)
    ensures r.AllProvidersFailed? ==> Recorded(ctx.attempts, ctx.providers, |ctx.providers|, b)
    ensures !r.AllProvidersFailed? ==>
              var k := |ctx.attempts|;
              && Recorded(ctx.attempts, ctx.providers, k, b) && FirstToSettle(ctx.providers, b, k)
              && r == (match b(ctx.providers[k].provider) case Output(data) => Result(data)
                                                          case OtherError(message) => Raised(message))
  {
    for i := 0 to |ctx.providers|
      invariant Recorded(ctx.attempts, ctx.providers, i, b)
    {
      var answer := b(ctx.providers[i].provider);
      match answer {
        case Output(data) =>
          return Result(data);
        case ProviderError(code, message) =>
          ctx.RecordAttempt(ctx.providers[i].provider, code, message);
        case OtherError(message) =>
          return Raised(message);
      }
    }
    r := AllProvidersFailed;
  }

  lemma OneSettlesFirst(adapters: seq<Adapter>, b: Behaviour, k: nat, m: nat)
    requires FirstToSettle(adapters, b, k) && FirstToSettle(adapters, b, m)
    ensures k == m && !AllFail(adapters, b)
  {
  }

  // The first provider without a ProviderError returns output.
  ghost predicate Answers(adapters: seq<Adapter>, b: Behaviour) {
    exists k: nat :: FirstToSettle(adapters, b, k) && b(adapters[k].provider).Output?
  }

  // It raises something else.
  ghost predicate Raises(adapters: seq<Adapter>, b: Behaviour) {
    exists k: nat :: FirstToSettle(adapters, b, k) && b(adapters[k].provider).OtherError?
  }

  // The handler's three endings exclude each other.
  lemma EndingsExclude(adapters: seq<Adapter>, b: Behaviour, k: nat)
    requires FirstToSettle(adapters, b, k)
    ensures !AllFail(adapters, b)
    ensures Answers(adapters, b) <==> b(adapters[k].provider).Output?
    ensures Raises(adapters, b) <==> b(adapters[k].provider).OtherError?
  {
    forall m: nat | FirstToSettle(adapters, b, m) ensures m == k {
      OneSettlesFirst(adapters, b, k, m);
    }
  }

  // --- The worker around it ---

  datatype AttemptStatus = AttemptFailure | AttemptSuccess

  datatype AttemptRow = AttemptRow(provider: nat, number: nat, status: AttemptStatus, code: string, message: string)

  // The attempts of a failed chain: one row per adapter, numbered from 1.
  ghost predicate FailureRows(rows: seq<AttemptRow>, adapters: seq<Adapter>, b: Behaviour) {
    && |rows| == |adapters|
    && forall i :: 0 <= i < |rows| ==>
         var answer := b(adapters[i].provider);
         answer.ProviderError?
         && rows[i] == AttemptRow(adapters[i].provider, i + 1, AttemptFailure, answer.code, answer.message)
  }

  // What happens around the handler: the input files are fetched, the typed input is built, the output is stored.
  datatype Surroundings = Surroundings(fetched: bool, builds: bool, stored: bool)

  // No link leads to a provider that is known, active, of a known class, and with a key that decrypts if it needs one.
  ghost predicate NoProvider(s: Setup) {
    forall i :: 0 <= i < |s.links| && s.links[i].provider in s.providers ==>
      var p := s.providers[s.links[i].provider];
      || p.status != "active" || p.adapterClass !in s.classes
      || (p.encryptedKey != "" && p.encryptedKey != "not-needed" && s.decrypt(p.encryptedKey).None?)
  }

  lemma NoAdapterIff(s: Setup)
    ensures Chain(s, |s.links|) == [] <==> NoProvider(s)
  {
    var from := ChainStandsFor(s, |s.links|);
    if from != [] {
      assert from[0] in from;
    }
  }

  // process_job from the provider chain on
  method RunChain(s: Setup, around: Surroundings, b: Behaviour) returns (outcome: Outcome, rows: seq<AttemptRow>)
    ensures outcome == Misconfigured <==> Chain(s, |s.links|) == []
    ensures outcome == Misconfigured <==> NoProvider(s)
    ensures outcome == InvalidInput <==> Chain(s, |s.links|) != [] && around.fetched && !around.builds
    ensures outcome == ProvidersFailed
       <==> Chain(s, |s.links|) != [] && around.fetched && around.builds && AllFail(Chain(s, |s.links|), b)
    ensures outcome == ProvidersFailed ==> FailureRows(rows, Chain(s, |s.links|), b)
    ensures outcome == HandlerRaised <==> around.fetched && around.builds && Raises(Chain(s, |s.links|), b)
    ensures outcome == Success <==> around.fetched && around.builds && around.stored && Answers(Chain(s, |s.links|), b)
    ensures outcome == Interrupted
       <==> Chain(s, |s.links|) != []
            && (!around.fetched || (around.builds && !around.stored && Answers(Chain(s, |s.links|), b)))
    ensures outcome == Success ==> rows == [AttemptRow(Chain(s, |s.links|)[0].provider, 1, AttemptSuccess, "", "")]
    ensures outcome !in {Success, ProvidersFailed} ==> rows == []
  {
    rows := [];
    var adapters, providerIds := BuildAdapters(s);
    NoAdapterIff(s);
    if s.links == [] || adapters == [] {
      return Misconfigured, rows;
    }
    if !around.fetched {
      return Interrupted, rows;
    }
    if !around.builds {
      return InvalidInput, rows;
    }
    var ctx := new JobContext(adapters);
    var handled := Handle(ctx, b);
    if !handled.AllProvidersFailed? {
      EndingsExclude(adapters, b, |ctx.attempts|);
    }
    match handled {
      case AllProvidersFailed =>
        for i := 0 to |ctx.attempts|
          invariant |rows| == i
          invariant forall k :: 0 <= k < i ==> rows[k] == AttemptRow(ctx.attempts[k].provider, k + 1, AttemptFailure,
                                                                     ctx.attempts[k].code, ctx.attempts[k].message)
        {
          var a := ctx.attempts[i];
          rows := rows + [AttemptRow(a.provider, i + 1, AttemptFailure, a.code, a.message)];
        }
        outcome := ProvidersFailed;
      case Raised(_) =>
        outcome := HandlerRaised;
      case Result(_) =>
        if around.stored {
          rows := [AttemptRow(providerIds[0], 1, AttemptSuccess, "", "")];
          outcome := Success;
        } else {
          outcome := Interrupted;
        }
    }
  }

  // A pending job ends up succeeded exactly on Success, is left running exactly on Interrupted, and is failed once
  // otherwise.
  lemma OutcomeDecidesStatus(a: Accounts, j: JobId, t: Attempt)
    requires WellOwned(a) && j in a.store.jobs && a.store.jobs[j].status == Pending
    ensures j in Process(a, j, t).store.jobs
    ensures var status, failed := Process(a, j, t).store.jobs[j].status, Process(a, j, t).failures[j];
            && (status == Succeeded <==> t.outcome == Success)
            && (status == Running <==> t.outcome == Interrupted)
            && (status == Failed <==> t.outcome != Success && t.outcome != Interrupted)
            && failed == a.failures[j] + if status == Failed then 1 else 0
    ensures var job, job' := a.store.jobs[j], Process(a, j, t).store.jobs[j];
            job' == job.(status := job'.status, startedAt := if t.outcome == Misconfigured then job.startedAt else t.now)
    ensures forall i :: i in a.store.jobs && i != j ==> i in Process(a, j, t).store.jobs && Process(a, j, t).store.jobs[i] == a.store.jobs[i]
  {
  }

  lemma FailGivesBack(a: Accounts, j: JobId, now: Time)
    requires Books(a.store, a.failures) && j in a.store.jobs
    ensures var s := a.store; var u := s.jobs[j].user;
            u in s.users && Apply(a, Change.Fail(j), now).store.users
                         == s.users[u := s.users[u].(balance := s.users[u].balance.Plus(Charges(s.ledger, j)))]
  {
    FailIsPosted(a.store, a.failures, j, now);
    assert JobBalanced(a.store, j, a.failures[j]);
  }

  // In the books its owner gets the whole charge back, bucket by bucket, exactly when it is failed, which it is unless
  // it succeeded or was left running, and no other balance moves.
  lemma OutcomeDecidesRefund(a: Accounts, j: JobId, t: Attempt)
    requires Books(a.store, a.failures) && j in a.store.jobs && a.store.jobs[j].status == Pending
    ensures var s, s' := a.store, Process(a, j, t).store;
            && s'.users.Keys == s.users.Keys && s.jobs[j].user in s.users && j in s'.jobs
            && (s'.jobs[j].status == Failed <==> t.outcome != Success && t.outcome != Interrupted)
            && forall u :: u in s.users ==>
                 s'.users[u].balance == if u == s.jobs[j].user && s'.jobs[j].status == Failed
                                        then s.users[u].balance.Plus(Charges(s.ledger, j)) else s.users[u].balance
  {
    BooksAreOwned(a);
    OutcomeDecidesStatus(a, j, t);
    FailGivesBack(a, j, t.now);
    var started := Apply(a, Start(j), t.now);
    CommitKeepsBooks(a, Start(j), t.now);
    FailGivesBack(started, j, t.now);
  }
}
