/** The program's entry points: `initialize`, and `initialize_launch`,
    which runs the account constraints, then `validate`, then `handle`,
    stopping at the first error. */
module Program {
  import opened Errors
  import opened Pda
  import opened Chain
  import opened Instructions

  /** `initialize` only logs a greeting; it succeeds and touches nothing. */
  method Initialize() returns (r: Result<()>)
    ensures r == Ok(())
  {
    r := Ok(());
  }

  /** What `initialize_launch` does to the ledger, end to end. */
  function Execute(env: Env, s: State, launchSigner: Pubkey): (o: Outcome)
    // any error leaves the whole ledger as it was
    ensures o.result.Err? ==> o.post == s
    // the account constraints come first
    ensures TryAccounts(env, s, launchSigner).Err? ==> o.result == Err(AccountAlreadyInUse)
    // a `validate` error is returned as it is and `handle` never runs
    ensures TryAccounts(env, s, launchSigner).Ok? && Validate(s.mint).Err? ==>
              o.result == Validate(s.mint) && o.post == s
    // otherwise the outcome is exactly that of `handle`
    ensures TryAccounts(env, s, launchSigner).Ok? && Validate(s.mint).Ok? ==>
              o == HandleSpec(env, s, TryAccounts(env, s, launchSigner).value)
    // the mint checks are reported ahead of the gate
    ensures o.result == Err(Launchpad(InvalidMintAuthority)) ==>
              s.mint.supply == 0 && s.mint.freezeAuthority.None?
    // nothing is minted unless the caller's account is the derived signer
    ensures |o.post.minted| != |s.minted| ==> o.result.Ok?
    ensures o.result.Ok? ==> launchSigner == LaunchSigner(env, LaunchAddress(env)).0
    // a success mints exactly the launch's tokens into a fresh vault
    ensures o.result.Ok? ==>
              && o.post.mint.supply == AVAILABLE_TOKENS
              && VaultAddress(env, launchSigner) in o.post.tokenAccounts
              && o.post.tokenAccounts[VaultAddress(env, launchSigner)] == TokenAccount(launchSigner, AVAILABLE_TOKENS)
              && LaunchAddress(env) in o.post.launches
              && o.post.launches[LaunchAddress(env)] == Launch(launchSigner)
              && |o.post.minted| == |s.minted| + 1
    // with everything else in order, the gate alone decides
    ensures Consistent(env.rt) && TryAccounts(env, s, launchSigner).Ok? && Validate(s.mint).Ok? ==>
              (o.result.Ok? <==> launchSigner == LaunchSigner(env, LaunchAddress(env)).0)
  {
    match TryAccounts(env, s, launchSigner)
    case Err(e) => Outcome(Err(e), s)
    case Ok(acc) =>
      match Validate(s.mint)
      case Err(e) => Outcome(Err(e), s)
      case Ok(_) => HandleSpec(env, s, acc)
  }

  /** `initialize_launch` on the ledger. */
  method InitializeLaunch(ledger: Ledger, launchSigner: Pubkey) returns (r: Result<()>)
    requires ledger.Valid()
    modifies ledger
    ensures ledger.Valid()
    ensures Outcome(r, ledger.Snapshot()) == Execute(ledger.env, old(ledger.Snapshot()), launchSigner)
  {
    var accounts := TryAccounts(ledger.env, ledger.Snapshot(), launchSigner);
    if accounts.Err? {
      return Err(accounts.error);
    }
    var valid := Validate(MintInfo(ledger.supply, ledger.mintAuthority, ledger.freezeAuthority));
    if valid.Err? {
      return Err(valid.error);
    }
    r := Handle(ledger, accounts.value);
  }

  /** A call of one of the program's instructions. */
  datatype Call = InitializeCall | InitializeLaunchCall(launchSigner: Pubkey)

  function Apply(env: Env, s: State, c: Call): Outcome {
    match c
    case InitializeCall => Outcome(Ok(()), s)
    case InitializeLaunchCall(launchSigner) => Execute(env, s, launchSigner)
  }

  /** The ledger after a sequence of calls, each run on the ledger the
      previous one left. */
  function Run(env: Env, s: State, calls: seq<Call>): State
    decreases |calls|
  {
    if calls == [] then s else Run(env, Apply(env, s, calls[0]).post, calls[1..])
  }

  /** A second launch for the same mint fails, whatever signer it names,
      and leaves the ledger as the first one left it. */
  lemma SecondLaunchFails(env: Env, s: State, first: Pubkey, second: Pubkey)
    requires Execute(env, s, first).result.Ok?
    ensures Execute(env, Execute(env, s, first).post, second)
              == Outcome(Err(AccountAlreadyInUse), Execute(env, s, first).post)
  {
  }

  /** A launch for a fresh mint with no supply and no freeze authority,
      whose mint authority is already the derived launch signer:
      naming the derived launch signer mints the launch's tokens into its
      vault; naming any other account is rejected by the gate and mints
      nothing. */
  lemma FreshMintLaunch(env: Env, mintAuthority: Option<Pubkey>, launchSigner: Pubkey)
    requires Consistent(env.rt)
    // the mint authority has been handed to the launch signer beforehand
    requires mintAuthority == Some(LaunchSigner(env, LaunchAddress(env)).0)
    ensures var s := State(map[], MintInfo(0, mintAuthority, None), map[], []);
            var o := Execute(env, s, launchSigner);
            var derived := LaunchSigner(env, LaunchAddress(env)).0;
            && (launchSigner == derived ==>
                  && o.result == Ok(())
                  && o.post.mint == MintInfo(AVAILABLE_TOKENS, mintAuthority, None)
                  && o.post.tokenAccounts == map[VaultAddress(env, derived) := TokenAccount(derived, AVAILABLE_TOKENS)])
            && (launchSigner != derived ==> o == Outcome(Err(Launchpad(InvalidMintAuthority)), s))
  {
  }

  /** Once the launch account exists, no call changes the ledger. */
  lemma {:induction false} RunAfterLaunchIsInert(env: Env, s: State, calls: seq<Call>)
    requires LaunchAddress(env) in s.launches
    ensures Run(env, s, calls) == s
    decreases |calls|
  {
    if calls != [] {
      assert Apply(env, s, calls[0]).post == s;
      RunAfterLaunchIsInert(env, s, calls[1..]);
    }
  }

  /** Over any sequence of calls the program mints at most once, and the
      supply grows by exactly what it minted. */
  lemma {:induction false} RunMintsAtMostOnce(env: Env, s: State, calls: seq<Call>)
    ensures var t := Run(env, s, calls);
              && |s.minted| <= |t.minted| <= |s.minted| + 1
              && t.minted[..|s.minted|] == s.minted
              && t.mint.supply == s.mint.supply + (|t.minted| - |s.minted|) * AVAILABLE_TOKENS
    decreases |calls|
  {
    if calls != [] {
      var o := Apply(env, s, calls[0]);
      if o.post == s {
        RunMintsAtMostOnce(env, s, calls[1..]);
      } else {
        RunAfterLaunchIsInert(env, o.post, calls[1..]);
      }
    }
  }

  /** A mint made through the program: the authority passed to `mint_to`
      and the address the signer seeds authorised are both the launch
      signer derived for this mint's launch, that signer is what the launch
      record holds, and the tokens went to its vault. */
  ghost predicate Authorised(env: Env, s: State, e: MintEvent) {
    var launch := LaunchAddress(env);
    var signer := LaunchSigner(env, launch).0;
    && launch in s.launches
    && s.launches[launch] == Launch(signer)
    && e.authority == signer
    && e.signer == signer
    && e.to == VaultAddress(env, signer)
    && e.amount == AVAILABLE_TOKENS
  }

  ghost predicate Secure(env: Env, s: State) {
    forall i :: 0 <= i < |s.minted| ==> Authorised(env, s, s.minted[i])
  }

  /** Every mint the program ever makes is authorised by the re-derived
      launch signer: the caller's account cannot stand in for it. */
  lemma {:induction false} RunKeepsSecure(env: Env, s: State, calls: seq<Call>)
    requires Consistent(env.rt)
    requires Secure(env, s)
    ensures Secure(env, Run(env, s, calls))
    decreases |calls|
  {
    if calls != [] {
      var o := Apply(env, s, calls[0]);
      if o.post != s {
        // the launch did not exist yet, so nothing had been minted before
        assert |s.minted| > 0 ==> Authorised(env, s, s.minted[0]);
        assert Authorised(env, o.post, o.post.minted[0]);
      }
      RunKeepsSecure(env, o.post, calls[1..]);
    }
  }
}
