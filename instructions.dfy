/** The `initialize_launch` instruction: the accounts it requires, the
    checks on the mint (`Validate`), and the handler that derives the
    launch signer, stores it, gates on the caller's `launch_signer`
    account and mints the launch's tokens into the vault. */
module Instructions {
  import opened Errors
  import opened Pda
  import opened Chain

  /** The amount minted into the vault: one million tokens of 6 decimals. */
  const AVAILABLE_TOKENS: nat := 1_000_000_000_000

  /** The ASCII bytes of `b"launch"` and `b"launch_signer"`. */
  const LAUNCH_TAG: Seed := [108, 97, 117, 110, 99, 104]
  const LAUNCH_SIGNER_TAG: Seed := LAUNCH_TAG + [95, 115, 105, 103, 110, 101, 114]

  /** Seeds of the launch account: `["launch", token mint]`. */
  function LaunchSeeds(tokenMint: Pubkey): seq<Seed> {
    [LAUNCH_TAG, tokenMint]
  }

  /** Seeds of the launch signer: `["launch_signer", launch]`. */
  function LaunchSignerSeeds(launch: Pubkey): seq<Seed> {
    [LAUNCH_SIGNER_TAG, launch]
  }

  /** The address of the launch account of the environment's mint. */
  function LaunchAddress(env: Env): Pubkey {
    env.rt.find(LaunchSeeds(env.tokenMint), env.programId).0
  }

  /** The launch signer of `launch` and its bump, under the program's id. */
  function LaunchSigner(env: Env, launch: Pubkey): (Pubkey, u8) {
    env.rt.find(LaunchSignerSeeds(launch), env.programId)
  }

  /** Where the vault of a launch whose signer is `launchSigner` lives. */
  function VaultAddress(env: Env, launchSigner: Pubkey): Pubkey {
    AssociatedTokenAddress(env.rt, launchSigner, env.tokenMint)
  }

  /** The accounts the instruction runs with once the framework has
      resolved them; only `launchSigner` is the caller's free choice. */
  datatype Accounts = Accounts(launch: Pubkey, launchSigner: Pubkey, tokenVault: Pubkey)

  /** The result of an instruction together with the ledger after it. */
  datatype Outcome = Outcome(result: Result<()>, post: State)

  /** The account constraints: the launch account is created at the address
      derived from `["launch", token mint]`, the vault at the associated
      token address of the caller's `launch_signer` and the mint; `init`
      fails when either already exists. */
  function TryAccounts(env: Env, s: State, launchSigner: Pubkey): (r: Result<Accounts>)
    ensures r.Ok? <==> LaunchAddress(env) !in s.launches && VaultAddress(env, launchSigner) !in s.tokenAccounts
    ensures r.Err? ==> r.error == AccountAlreadyInUse
    ensures r.Ok? ==> && r.value.launch == env.rt.find([LAUNCH_TAG, env.tokenMint], env.programId).0
                      && r.value.launchSigner == launchSigner
                      && r.value.tokenVault == AssociatedTokenAddress(env.rt, launchSigner, env.tokenMint)
  {
    var launch := LaunchAddress(env);
    var vault := VaultAddress(env, launchSigner);
    if launch in s.launches || vault in s.tokenAccounts then Err(AccountAlreadyInUse)
    else Ok(Accounts(launch, launchSigner, vault))
  }

  /** `validate`: the mint must have no supply yet, then no freeze authority. */
  function Validate(mint: MintInfo): (r: Result<()>)
    ensures r.Ok? <==> mint.supply == 0 && mint.freezeAuthority.None?
    ensures mint.supply != 0 ==> r == Err(Launchpad(SupplyNonZero))
    ensures mint.supply == 0 && mint.freezeAuthority.Some? ==> r == Err(Launchpad(FreezeAuthoritySet))
  {
    if mint.supply != 0 then Err(Launchpad(SupplyNonZero))
    else if mint.freezeAuthority.Some? then Err(Launchpad(FreezeAuthoritySet))
    else Ok(())
  }

  /** What `handle` does to the ledger. Any failure leaves it as it was,
      because the instruction is atomic. */
  function HandleSpec(env: Env, s: State, acc: Accounts): (o: Outcome)
    ensures o.result.Err? ==> o.post == s
    ensures acc.launchSigner != LaunchSigner(env, acc.launch).0 ==>
              o.result == Err(Launchpad(InvalidMintAuthority))
    ensures Consistent(env.rt) ==> (o.result.Ok? <==> acc.launchSigner == LaunchSigner(env, acc.launch).0)
    ensures o.result.Ok? ==>
              && acc.launchSigner == LaunchSigner(env, acc.launch).0
              && o.post.launches == s.launches[acc.launch := Launch(LaunchSigner(env, acc.launch).0)]
              && o.post.mint == s.mint.(supply := s.mint.supply + AVAILABLE_TOKENS)
              && o.post.tokenAccounts == s.tokenAccounts[acc.tokenVault := TokenAccount(acc.launchSigner, AVAILABLE_TOKENS)]
              && |o.post.minted| == |s.minted| + 1 && o.post.minted[..|s.minted|] == s.minted
              && o.post.minted[|s.minted|].to == acc.tokenVault
              && o.post.minted[|s.minted|].authority == acc.launchSigner
              && o.post.minted[|s.minted|].amount == AVAILABLE_TOKENS
              && env.rt.create(WithBump(LaunchSignerSeeds(acc.launch), LaunchSigner(env, acc.launch).1), env.programId)
                   == Some(o.post.minted[|s.minted|].signer)
    ensures Consistent(env.rt) && o.result.Ok? ==> o.post.minted[|s.minted|].signer == acc.launchSigner
  {
    var (launchSigner, bump) := LaunchSigner(env, acc.launch);
    if acc.launchSigner != launchSigner then Outcome(Err(Launchpad(InvalidMintAuthority)), s)
    else match env.rt.create(WithBump(LaunchSignerSeeds(acc.launch), bump), env.programId)
      case None => Outcome(Err(InvalidSeeds), s)
      case Some(signer) =>
        Outcome(Ok(()), State(
          s.launches[acc.launch := Launch(launchSigner)],
          s.mint.(supply := s.mint.supply + AVAILABLE_TOKENS),
          s.tokenAccounts[acc.tokenVault := TokenAccount(acc.launchSigner, AVAILABLE_TOKENS)],
          s.minted + [MintEvent(acc.tokenVault, acc.launchSigner, signer, AVAILABLE_TOKENS)]))
  }

  /** `handle`, run once the accounts exist and `Validate` has passed. The
      launch data is set in the account's copy before the gate and reaches
      the ledger only when the handler succeeds, as do the two accounts
      `init` created. */
  method Handle(ledger: Ledger, acc: Accounts) returns (r: Result<()>)
    requires ledger.Valid()
    requires acc.launch !in ledger.launches && acc.tokenVault !in ledger.tokenAccounts
    requires ledger.supply == 0
    modifies ledger
    ensures ledger.Valid()
    ensures Outcome(r, ledger.Snapshot()) == HandleSpec(ledger.env, old(ledger.Snapshot()), acc)
  {
    var env := ledger.env;
    var seeds := LaunchSignerSeeds(acc.launch);
    var (launchSigner, bump) := env.rt.find(seeds, env.programId);
    var data := Launch(launchSigner);
    var signerSeeds := WithBump(seeds, bump);
    if acc.launchSigner != launchSigner {
      return Err(Launchpad(InvalidMintAuthority));
    }
    var signer := env.rt.create(signerSeeds, env.programId);
    if signer.None? {
      return Err(InvalidSeeds);
    }
    ledger.CreateLaunch(acc.launch, data);
    ledger.CreateTokenAccount(acc.tokenVault, acc.launchSigner);
    ledger.MintTo(acc.tokenVault, acc.launchSigner, signer.value, AVAILABLE_TOKENS);
    r := Ok(());
  }
}
