/**
 Crash-recoverable deployment (contracts/scripts/deploy-amoy-test.ts).

 Ten transactions are sent from one account, each with a fixed nonce. A checkpoint file
 records what is known of every step. The process may die between any two lines; a
 transaction may be mined, or reverted, between any two lines; and the checkpoint file may be
 lost, or replaced by that of another deployment. Method `Gap` is what can happen between two
 lines of the script. It stands wherever the script awaits or writes a file.
 */
module Deployment {
  import opened Outcomes

  // ---------- Addresses, transactions, the chain ----------

  /** A contract address is a function of the creator and its nonce, modelled as the free one. */
  datatype Address = External(id: nat) | Created(from: nat, nonce: nat)

  function CreateAddress(deployer: nat, nonce: nat): Address {
    Created(deployer, nonce)
  }

  datatype Payload = CreateContract(contract: nat) | GrantRole(grant: nat) | MintRelay(amount: nat)

  datatype Tx = Tx(nonce: nat, payload: Payload)

  /** A transaction hash is the position of the transaction among all submitted ones. */
  type Hash = nat

  datatype Receipt = Receipt(hash: Hash, ok: bool)

  /** `log` holds every transaction ever submitted, `mined` the receipts in block order. */
  datatype Chain = Chain(log: seq<Tx>, mined: seq<Receipt>)

  function LatestCount(c: Chain): nat {
    |c.mined|
  }

  /** The pending transaction count covers every submitted transaction. */
  function PendingCount(log: seq<Tx>): nat {
    if log == [] then 0
    else
      var before := PendingCount(log[..|log| - 1]);
      var last := log[|log| - 1].nonce + 1;
      if before < last then last else before
  }

  predicate Effective(c: Chain, k: nat) {
    k < |c.mined| && c.mined[k].ok && c.mined[k].hash < |c.log|
  }

  predicate HasCode(c: Chain, deployer: nat, a: Address) {
    exists k: nat | k < |c.mined| :: Effective(c, k)
      && c.log[c.mined[k].hash].payload.CreateContract?
      && a == CreateAddress(deployer, c.log[c.mined[k].hash].nonce)
  }

  predicate HasRole(c: Chain, grant: nat) {
    exists k: nat | k < |c.mined| :: Effective(c, k) && c.log[c.mined[k].hash].payload == GrantRole(grant)
  }

  /** The factory's constructor grants the relay its role. */
  predicate HasRelayRole(c: Chain) {
    exists k: nat | k < |c.mined| :: Effective(c, k)
      && c.log[c.mined[k].hash].payload == CreateContract(ESCROW_FACTORY)
  }

  /** Everything ever minted to the relay by the first `n` mined transactions. */
  function MintedUpTo(c: Chain, n: nat): nat
    requires n <= |c.mined|
  {
    if n == 0 then 0
    else
      var before := MintedUpTo(c, n - 1);
      if Effective(c, n - 1) && c.log[c.mined[n - 1].hash].payload.MintRelay?
      then before + c.log[c.mined[n - 1].hash].payload.amount
      else before
  }

  function RelayBalance(c: Chain): nat {
    MintedUpTo(c, |c.mined|)
  }

  // ---------- The checkpoint ----------

  const STEPS: nat := 10
  const DEPLOYS: nat := 6
  const ESCROW_FACTORY: nat := 5
  const MINT: nat := 9
  const EXPECTED_INITIAL_NONCE: nat := 0

  datatype Evidence = Evidence(
    step: nat,
    hash: Option<Hash>,
    nonce: nat,
    contractAddress: Option<Address>,
    recoveredFromChain: bool)

  datatype CheckpointStep = CheckpointStep(
    id: nat,
    nonce: nat,
    expectedContractAddress: Option<Address>,
    txHash: Option<Hash>,
    evidence: Option<Evidence>)

  datatype Checkpoint = Checkpoint(
    schemaVersion: int,
    chainId: int,
    deployer: nat,
    relay: Address,
    initialNonce: nat,
    contracts: seq<Address>,
    steps: seq<CheckpointStep>)

  /** What one deployment is for: the key, the relay and the chain. The amount to mint is read from the
      environment by every run anew. */
  datatype Plan = Plan(deployer: nat, relay: Address, chainId: int)

  /** The planned addresses of the six contracts. */
  function PlannedContracts(deployer: nat, initialNonce: nat, n: nat): (a: seq<Address>)
    ensures |a| == n
    ensures forall k: nat | k < n :: a[k] == CreateAddress(deployer, initialNonce + k)
  {
    if n == 0 then [] else PlannedContracts(deployer, initialNonce, n - 1) + [CreateAddress(deployer, initialNonce + n - 1)]
  }

  /** The first `n` steps, nothing recorded of any. */
  function BlankSteps(deployer: nat, initialNonce: nat, n: nat): (s: seq<CheckpointStep>)
    ensures |s| == n
    ensures forall k: nat | k < n :: s[k].id == k && s[k].nonce == initialNonce + k && s[k].txHash.None? && s[k].evidence.None?
              && s[k].expectedContractAddress == if k < DEPLOYS then Some(CreateAddress(deployer, initialNonce + k)) else None
  {
    if n == 0 then []
    else
      var k := n - 1;
      BlankSteps(deployer, initialNonce, k) + [CheckpointStep(
        k, initialNonce + k, if k < DEPLOYS then Some(CreateAddress(deployer, initialNonce + k)) else None, None, None)]
  }

  function CreateCheckpoint(plan: Plan, initialNonce: nat): Checkpoint {
    Checkpoint(1, plan.chainId, plan.deployer, plan.relay, initialNonce,
               PlannedContracts(plan.deployer, initialNonce, DEPLOYS), BlankSteps(plan.deployer, initialNonce, STEPS))
  }

  /** `validateCheckpoint`: the identity fields and addresses, but not the steps. */
  predicate ValidateCheckpoint(cp: Checkpoint, plan: Plan) {
    && cp.schemaVersion == 1
    && cp.chainId == plan.chainId
    && cp.deployer == plan.deployer
    && cp.relay == plan.relay
    && cp.initialNonce == EXPECTED_INITIAL_NONCE
    && cp.contracts == PlannedContracts(plan.deployer, cp.initialNonce, DEPLOYS)
  }

  function TransactionEvidence(step: CheckpointStep, hash: Hash, contractAddress: Option<Address>): Evidence {
    Evidence(step.id, Some(hash), step.nonce, contractAddress, false)
  }

  function RecoveredEvidence(step: CheckpointStep, hash: Option<Hash>, contractAddress: Option<Address>): Evidence {
    Evidence(step.id, hash, step.nonce, contractAddress, true)
  }

  function ReceiptAddress(plan: Plan, tx: Tx): Option<Address> {
    if tx.payload.CreateContract? then Some(CreateAddress(plan.deployer, tx.nonce)) else None
  }

  // ---------- The invariant ----------

  /** The payload of each step, in program order; the amount minted is the one of the run that sent it. */
  predicate IsPayload(k: nat, p: Payload) {
    if k < DEPLOYS then p == CreateContract(k)
    else if k < MINT then p == GrantRole(k - DEPLOYS)
    else p.MintRelay? && p.amount > 0
  }

  /** Step `k` of the script is on chain and took effect. */
  predicate StepDone(k: nat, c: Chain) {
    k < |c.mined| && c.mined[k].ok
  }

  /** The submitted transactions are a prefix of the ten steps, in order, one each; a step is
      submitted only after every earlier one succeeded. */
  ghost predicate ChainOk(c: Chain) {
    && |c.log| <= STEPS
    && (forall k: nat | k < |c.log| :: c.log[k].nonce == k && IsPayload(k, c.log[k].payload))
    && |c.mined| <= |c.log| <= |c.mined| + 1
    && (forall k: nat | k < |c.mined| :: c.mined[k].hash == k)
    && (forall k: nat | k + 1 < |c.log| :: StepDone(k, c))
  }

  /** What a checkpoint says of step `k` is true of the chain. */
  ghost predicate StepTrue(s: CheckpointStep, k: nat, c: Chain, plan: Plan) {
    && s.id == k
    && s.nonce == k
    && s.expectedContractAddress == PlannedAddress(k, plan)
    && (s.txHash.Some? ==> s.txHash.value == k < |c.log|)
    && (s.evidence.Some? ==>
          && StepDone(k, c)
          && s.evidence.value.step == k
          && s.evidence.value.nonce == k
          && s.evidence.value.contractAddress == PlannedAddress(k, plan)
          && (s.evidence.value.hash.Some? ==> s.evidence.value.hash.value == k))
  }

  function PlannedAddress(k: nat, plan: Plan): Option<Address> {
    if k < DEPLOYS then Some(CreateAddress(plan.deployer, k)) else None
  }

  /** The evidence of step `k`: from its own transaction, or recovered from the chain. */
  ghost function EvidenceOf(k: nat, hash: Option<Hash>, recovered: bool, plan: Plan): Evidence {
    Evidence(k, hash, k, if k < 6 then Some(CreateAddress(plan.deployer, k)) else None, recovered)
  }

  ghost predicate CheckpointTrue(cp: Checkpoint, c: Chain, plan: Plan) {
    && ValidateCheckpoint(cp, plan)
    && |cp.steps| == STEPS
    && forall k: nat | k < STEPS :: StepTrue(cp.steps[k], k, c, plan)
  }

  ghost predicate DiskOk(disk: Option<Checkpoint>, c: Chain, plan: Plan) {
    disk.Some? && ValidateCheckpoint(disk.value, plan) ==> CheckpointTrue(disk.value, c, plan)
  }

  ghost predicate Extends(before: Chain, after: Chain) {
    && |before.log| <= |after.log|
    && (forall k: nat | k < |before.log| :: after.log[k] == before.log[k])
    && |before.mined| <= |after.mined|
    && (forall k: nat | k < |before.mined| :: after.mined[k] == before.mined[k])
  }

  predicate OnRecord(s: CheckpointStep) {
    s.evidence.Some? || s.txHash.Some?
  }

  /** Steps `0 .. n` all have evidence. */
  ghost predicate EvidencedUpTo(cp: Checkpoint, n: nat) {
    n <= |cp.steps| && forall k: nat | k < n :: cp.steps[k].evidence.Some?
  }

  // ---------- Facts about the chain ----------

  lemma {:induction false} PendingIsLogLength(log: seq<Tx>)
    requires forall k: nat | k < |log| :: log[k].nonce == k
    ensures PendingCount(log) == |log|
  {
    if log != [] {
      PendingIsLogLength(log[..|log| - 1]);
    }
  }

  /** At most one transaction is ever submitted per nonce, and only the steps' own nonces are used. */
  lemma AtMostOneSend(c: Chain, i: nat, j: nat)
    requires ChainOk(c)
    requires i < |c.log| && j < |c.log| && c.log[i].nonce == c.log[j].nonce
    ensures i == j && c.log[i].nonce < STEPS
  {
  }

  /** What the mint step mints, once it was sent. */
  function MintAmount(c: Chain): nat
    requires MINT < |c.log| && c.log[MINT].payload.MintRelay?
  {
    c.log[MINT].payload.amount
  }

  /** Nothing but the mint step mints, and it mints exactly the amount it was sent with. */
  lemma {:induction false} MintedExactly(c: Chain, n: nat)
    requires ChainOk(c) && n <= |c.mined|
    ensures MintedUpTo(c, n) == if MINT < n && StepDone(MINT, c) then MintAmount(c) else 0
  {
    if n != 0 {
      MintedExactly(c, n - 1);
    }
  }

  lemma RelayBalanceExact(c: Chain)
    requires ChainOk(c)
    ensures RelayBalance(c) == if StepDone(MINT, c) then MintAmount(c) else 0
    ensures RelayBalance(c) > 0 <==> StepDone(MINT, c)
  {
    MintedExactly(c, |c.mined|);
  }

  /** Code is at a planned address exactly when that deployment step took effect. */
  lemma CodeIffStepDone(c: Chain, plan: Plan, k: nat)
    requires ChainOk(c) && k < DEPLOYS
    ensures HasCode(c, plan.deployer, CreateAddress(plan.deployer, k)) <==> StepDone(k, c)
  {
    if StepDone(k, c) {
      assert Effective(c, k);
    }
  }

  lemma RoleIffStepDone(c: Chain, g: nat)
    requires ChainOk(c) && g < MINT - DEPLOYS
    ensures HasRole(c, g) <==> StepDone(DEPLOYS + g, c)
  {
    if StepDone(DEPLOYS + g, c) {
      assert Effective(c, DEPLOYS + g);
    }
  }

  lemma RelayRoleIffFactory(c: Chain)
    requires ChainOk(c)
    ensures HasRelayRole(c) <==> StepDone(ESCROW_FACTORY, c)
  {
    if StepDone(ESCROW_FACTORY, c) {
      assert Effective(c, ESCROW_FACTORY);
    }
  }

  /** Evidence, once true, stays true whatever the chain does next. */
  lemma CheckpointStaysTrue(cp: Checkpoint, before: Chain, after: Chain, plan: Plan)
    requires CheckpointTrue(cp, before, plan) && Extends(before, after)
    ensures CheckpointTrue(cp, after, plan)
  {
    forall k: nat | k < STEPS
      ensures StepTrue(cp.steps[k], k, after, plan)
    {
      assert StepTrue(cp.steps[k], k, before, plan);
    }
  }

  lemma StaysDone(before: Chain, after: Chain)
    requires Extends(before, after)
    ensures forall k: nat | StepDone(k, before) :: StepDone(k, after)
  {
  }

  /** A reverted step can never gain evidence. */
  lemma RevertedStepHasNoEvidence(cp: Checkpoint, c: Chain, plan: Plan, k: nat)
    requires CheckpointTrue(cp, c, plan)
    requires k < |c.mined| && k < STEPS && !c.mined[k].ok
    ensures cp.steps[k].evidence.None?
  {
    assert StepTrue(cp.steps[k], k, c, plan);
  }

  // ---------- The script ----------

  /** Where the process was when it died. */
  datatype Point = Starting | BeforeSend | AfterSend | Waiting | AfterStep

  datatype Reason =
    | NotFresh
    | ForeignCheckpoint
    | LowBalance
    | ExceedsPlan
    | PendingOrUnknown
    | Reverted
    | AmbiguousNonce
    | DidNotSucceed

  datatype Outcome = Done | Threw(reason: Reason) | Crashed(at: Point)

  /** One copy of the script, the file it keeps and the chain it talks to. */
  class Deployer {
    const plan: Plan
    var disk: Option<Checkpoint>
    var chain: Chain
    var checkpoint: Checkpoint

    constructor (plan: Plan)
      ensures Idle() && this.plan == plan
      ensures disk == None && chain == Chain([], [])
    {
      this.plan := plan;
      disk := None;
      chain := Chain([], []);
      checkpoint := CreateCheckpoint(plan, EXPECTED_INITIAL_NONCE);
    }

    /** A file is taken for this deployment's own if and only if schema, chain, key, relay, first nonce and
        all six addresses are this deployment's. */
    lemma OwnFileIff(f: Checkpoint)
      ensures !ValidateCheckpoint(f, plan) <==>
              (|| f.schemaVersion != 1 || f.chainId != plan.chainId || f.deployer != plan.deployer || f.relay != plan.relay
               || f.initialNonce != 0
               || f.contracts != [Created(plan.deployer, 0), Created(plan.deployer, 1), Created(plan.deployer, 2),
                                  Created(plan.deployer, 3), Created(plan.deployer, 4), Created(plan.deployer, 5)])
    {
      assert PlannedContracts(plan.deployer, 0, DEPLOYS) ==
             [Created(plan.deployer, 0), Created(plan.deployer, 1), Created(plan.deployer, 2),
              Created(plan.deployer, 3), Created(plan.deployer, 4), Created(plan.deployer, 5)];
    }

    /** Holds at every point of every run, whether or not a process is alive. */
    ghost predicate Idle()
      reads this
    {
      ChainOk(chain) && DiskOk(disk, chain, plan)
    }

    /** A process is alive and its copy of the checkpoint is true. */
    ghost predicate Running()
      reads this
    {
      Idle() && CheckpointTrue(checkpoint, chain, plan)
    }

    /** Step `k` was the only one whose record changed. */
    twostate predicate OnlyStep(k: nat)
      requires k < STEPS
      reads this
    {
      && Extends(old(chain), chain)
      && |checkpoint.steps| == |old(checkpoint).steps| == STEPS
      && checkpoint == old(checkpoint).(steps := old(checkpoint).steps[k := checkpoint.steps[k]])
    }

    /** The transaction of step `k` was sent, when nothing was pending and nothing of it was sent before. */
    twostate predicate Sent(k: nat, payload: Payload)
      reads this
    {
      && |old(chain).log| == k == |old(chain).mined|
      && chain.log == old(chain.log) + [Tx(k, payload)]
    }

    /** The mint was not touched. */
    twostate predicate MintUntouched()
      requires MINT < |old(checkpoint).steps| && MINT < |checkpoint.steps|
      reads this
    {
      && checkpoint.steps[MINT] == old(checkpoint).steps[MINT]
      && (chain.log == old(chain.log) || |chain.log| <= MINT)
    }

    /** A run with this amount gets past the mint: it was not sent before, or with the same amount, or
        with a smaller one that is on record, and then nothing more is minted. */
    ghost predicate MintSettles(relayFloat: nat)
      requires ChainOk(chain) && MINT < |checkpoint.steps|
      reads this
    {
      || |chain.log| <= MINT
      || MintAmount(chain) == relayFloat
      || (MintAmount(chain) < relayFloat && OnRecord(checkpoint.steps[MINT]))
    }

    /** The file, unless lost or replaced, holds the transaction hash of step `k`. */
    ghost predicate Recorded(k: nat)
      reads this
    {
      disk.Some? && ValidateCheckpoint(disk.value, plan) ==> k < |disk.value.steps| && disk.value.steps[k].txHash == Some(k)
    }

    /** Step `k` is next, or there is something by which `reconcileStep` can tell it was sent. */
    ghost predicate Recoverable(k: nat)
      requires k < |checkpoint.steps|
      reads this
    {
      |chain.log| == k || OnRecord(checkpoint.steps[k]) || k < DEPLOYS
    }

    /** Everything submitted so far was mined and succeeded. */
    ghost predicate AllSucceeded()
      reads this
    {
      |chain.mined| == |chain.log| && forall k: nat | k < |chain.mined| :: StepDone(k, chain)
    }

    // ----- The world between two lines -----

    /** The next submitted transaction is mined; it may revert. */
    method MineNext(ok: bool)
      requires ChainOk(chain) && |chain.mined| < |chain.log|
      modifies this`chain
      ensures ChainOk(chain)
      ensures chain == Chain(old(chain.log), old(chain.mined) + [Receipt(|old(chain.mined)|, ok)])
    {
      chain := chain.(mined := chain.mined + [Receipt(|chain.mined|, ok)]);
      StaysDone(old(chain), chain);
    }

    /** The file is replaced by that of another deployment: of another chain, key, relay or schema. */
    method ReplaceFile(other: Checkpoint)
      requires Idle()
      requires (|| other.schemaVersion != 1 || other.chainId != plan.chainId || other.deployer != plan.deployer || other.relay != plan.relay
               || other.initialNonce != 0
               || other.contracts != [Created(plan.deployer, 0), Created(plan.deployer, 1), Created(plan.deployer, 2),
                                  Created(plan.deployer, 3), Created(plan.deployer, 4), Created(plan.deployer, 5)])
      modifies this`disk
      ensures Idle() && disk == Some(other)
      ensures old(Running()) ==> Running()
    {
      OwnFileIff(other);
      disk := Some(other);
    }

    /** Any number of the submitted transactions are mined. */
    method Mine()
      requires Idle()
      modifies this`chain
      ensures Idle()
      ensures old(Running()) ==> Running()
      ensures Extends(old(chain), chain) && chain.log == old(chain.log)
    {
      while *
        invariant ChainOk(chain) && Extends(old(chain), chain) && chain.log == old(chain.log)
        decreases |chain.log| - |chain.mined|
      {
        if |chain.mined| == |chain.log| {
          break;
        }
        var ok: bool := *;
        MineNext(ok);
      }
      if old(Running()) {
        CheckpointStaysTrue(checkpoint, old(chain), chain, plan);
      }
      if disk.Some? && ValidateCheckpoint(disk.value, plan) {
        CheckpointStaysTrue(disk.value, old(chain), chain, plan);
      }
    }

    /** Any number of transactions may be mined, the checkpoint file may be lost or replaced by
        that of another deployment, and the process may die. */
    method Gap(calm: bool) returns (alive: bool)
      requires Idle()
      modifies this`disk, this`chain
      ensures Idle()
      ensures old(Running()) ==> Running()
      ensures Extends(old(chain), chain) && chain.log == old(chain.log)
      ensures disk == old(disk) || disk.None? || !ValidateCheckpoint(disk.value, plan)
      ensures calm ==> alive && disk == old(disk) && chain == old(chain)
    {
      if calm {
        return true;
      }
      Mine();
      var other: Checkpoint := *;
      if * {
        disk := None;
      } else if * {
        if (|| other.schemaVersion != 1 || other.chainId != plan.chainId || other.deployer != plan.deployer || other.relay != plan.relay
            || other.initialNonce != 0
            || other.contracts != [Created(plan.deployer, 0), Created(plan.deployer, 1), Created(plan.deployer, 2),
                               Created(plan.deployer, 3), Created(plan.deployer, 4), Created(plan.deployer, 5)]) {
          ReplaceFile(other);
        }
      }
      alive := *;
    }

    /** `tx.wait()`: the process lives to see the receipt of `hash`, or dies waiting. */
    method Wait(hash: Hash, calm: bool) returns (alive: bool, ok: bool)
      requires Running() && hash + 1 == |chain.log|
      requires calm ==> |chain.mined| == hash
      modifies this`disk, this`chain
      ensures Running()
      ensures Extends(old(chain), chain) && chain.log == old(chain.log)
      ensures disk == old(disk) || disk.None? || !ValidateCheckpoint(disk.value, plan)
      ensures alive ==> |chain.mined| == hash + 1 && ok == chain.mined[hash].ok
      ensures calm ==> alive && ok && disk == old(disk)
    {
      if calm {
        MineNext(true);
        CheckpointStaysTrue(checkpoint, old(chain), chain, plan);
        if disk.Some? && ValidateCheckpoint(disk.value, plan) {
          CheckpointStaysTrue(disk.value, old(chain), chain, plan);
        }
        return true, true;
      }
      alive := Gap(false);
      alive := alive && hash < |chain.mined|;
      ok := alive && chain.mined[hash].ok;
    }

    // ----- Lines of the script -----

    /** `writeJsonAtomic(checkpointPath, checkpoint)`: the file is written and renamed, so it is
        either the old one or the new one. */
    method SaveCheckpoint()
      requires Running()
      modifies this`disk
      ensures Running() && disk == Some(checkpoint)
    {
      disk := Some(checkpoint);
    }

    /** The account's transaction with the nonce of step `k` is broadcast. */
    method Send(k: nat, payload: Payload) returns (hash: Hash)
      requires Running() && k < STEPS && IsPayload(k, payload)
      requires LatestCount(chain) == k == PendingCount(chain.log)
      requires forall j: nat | j < k :: StepDone(j, chain)
      modifies this`chain
      ensures Running()
      ensures chain == Chain(old(chain.log) + [Tx(k, payload)], old(chain.mined))
      ensures hash == |old(chain.log)| == k
    {
      PendingIsLogLength(chain.log);
      hash := |chain.log|;
      chain := chain.(log := chain.log + [Tx(k, payload)]);
      StaysDone(old(chain), chain);
      CheckpointStaysTrue(checkpoint, old(chain), chain, plan);
      if disk.Some? && ValidateCheckpoint(disk.value, plan) {
        CheckpointStaysTrue(disk.value, old(chain), chain, plan);
      }
    }

    method SetEvidence(k: nat, e: Evidence)
      requires Running() && k < STEPS
      requires StepTrue(checkpoint.steps[k].(evidence := Some(e)), k, chain, plan)
      modifies this`checkpoint
      ensures Running()
      ensures checkpoint == old(checkpoint).(steps := old(checkpoint).steps[k := old(checkpoint).steps[k].(evidence := Some(e))])
    {
      checkpoint := checkpoint.(steps := checkpoint.steps[k := checkpoint.steps[k].(evidence := Some(e))]);
    }

    method SetTxHash(k: nat, hash: Hash)
      requires Running() && k < STEPS && hash == k < |chain.log|
      modifies this`checkpoint
      ensures Running()
      ensures checkpoint == old(checkpoint).(steps := old(checkpoint).steps[k := old(checkpoint).steps[k].(txHash := Some(hash))])
    {
      assert StepTrue(checkpoint.steps[k], k, chain, plan);
      checkpoint := checkpoint.(steps := checkpoint.steps[k := checkpoint.steps[k].(txHash := Some(hash))]);
    }

    /** `reconcileStep`, when a transaction hash is recorded: only its receipt is consulted. */
    method SettleRecorded(k: nat, calm: bool) returns (r: Outcome)
      requires Running() && k < STEPS && EvidencedUpTo(checkpoint, k)
      requires checkpoint.steps[k].evidence.None? && checkpoint.steps[k].txHash.Some?
      modifies this
      ensures Running() && OnlyStep(k) && chain.log == old(chain.log)
      ensures r in {Done, Crashed(BeforeSend), Threw(PendingOrUnknown), Threw(Reverted)}
      ensures r.Done? ==> disk == Some(checkpoint) && checkpoint.steps[k] == old(checkpoint).steps[k].(
                            evidence := Some(EvidenceOf(k, Some(k), false, plan)))
      ensures !r.Done? ==> checkpoint == old(checkpoint)
      ensures r == Threw(Reverted) ==> k < |chain.mined| && !chain.mined[k].ok
      ensures calm ==> chain == old(chain) && (old(AllSucceeded()) ==> r.Done?)
    {
      var step := checkpoint.steps[k];
      assert StepTrue(step, k, chain, plan);
      var alive := Gap(calm);
      if !alive {
        return Crashed(BeforeSend);
      }
      var hash := step.txHash.value;
      if hash >= |chain.mined| {
        return Threw(PendingOrUnknown);
      }
      if !chain.mined[hash].ok {
        assert !StepDone(k, chain);
        return Threw(Reverted);
      }
      SetEvidence(k, TransactionEvidence(step, hash, ReceiptAddress(plan, chain.log[hash])));
      SaveCheckpoint();
      return Done;
    }

    /** The nonce guard: the account's latest and pending counts must both equal the step's nonce. */
    method CheckNonces(k: nat, calm: bool) returns (r: Outcome)
      requires Running() && k < STEPS && k <= |chain.mined|
      modifies this`disk, this`chain
      ensures Running() && Extends(old(chain), chain) && chain.log == old(chain.log)
      ensures r in {Done, Crashed(BeforeSend), Threw(AmbiguousNonce)}
      ensures r.Done? ==> LatestCount(chain) == k == PendingCount(chain.log)
      ensures r == Threw(AmbiguousNonce) ==> k < |chain.log|
      ensures calm ==> disk == old(disk) && chain == old(chain) && (|chain.log| == k ==> r.Done?)
    {
      var nonce := checkpoint.steps[k].nonce;
      assert StepTrue(checkpoint.steps[k], k, chain, plan);
      var alive := Gap(calm);
      if !alive {
        return Crashed(BeforeSend);
      }
      var latestNonce := LatestCount(chain);
      alive := Gap(calm);
      if !alive {
        return Crashed(BeforeSend);
      }
      PendingIsLogLength(chain.log);
      var pendingNonce := PendingCount(chain.log);
      if latestNonce != nonce || pendingNonce != nonce {
        return Threw(AmbiguousNonce);
      }
      alive := Gap(calm);
      if !alive {
        return Crashed(BeforeSend);
      }
      return Done;
    }

    /** The transaction is broadcast and its hash is written to the file. */
    method SendAndRecord(k: nat, payload: Payload, calm: bool) returns (r: Outcome)
      requires Running() && k < STEPS && IsPayload(k, payload)
      requires LatestCount(chain) == k == PendingCount(chain.log)
      requires forall j: nat | j < k :: StepDone(j, chain)
      modifies this
      ensures Running() && OnlyStep(k) && Sent(k, payload)
      ensures r in {Done, Crashed(AfterSend)}
      ensures r.Done? ==> disk == Some(checkpoint) && checkpoint.steps[k] == old(checkpoint).steps[k].(txHash := Some(k))
      ensures r.Crashed? ==> checkpoint == old(checkpoint)
      ensures calm ==> r.Done? && chain.mined == old(chain.mined)
    {
      PendingIsLogLength(chain.log);
      var txHash := Send(k, payload);
      var alive := Gap(calm);
      if !alive {
        return Crashed(AfterSend);
      }
      SetTxHash(k, txHash);
      SaveCheckpoint();
      return Done;
    }

    /** The receipt of the recorded transaction is awaited. */
    method Await(k: nat, calm: bool) returns (r: Outcome)
      requires Running() && k < STEPS && disk == Some(checkpoint)
      requires |chain.log| == k + 1 && checkpoint.steps[k].txHash == Some(k)
      requires calm ==> |chain.mined| == k
      modifies this
      ensures Running() && Extends(old(chain), chain) && chain.log == old(chain.log)
      ensures r in {Done, Crashed(Waiting), Threw(DidNotSucceed)}
      ensures r.Done? ==> disk == Some(checkpoint) && checkpoint == old(checkpoint).(steps :=
                            old(checkpoint).steps[k := old(checkpoint).steps[k].(
                            evidence := Some(EvidenceOf(k, Some(k), false, plan)))])
      ensures !r.Done? ==> checkpoint == old(checkpoint) && Recorded(k)
      ensures r == Threw(DidNotSucceed) ==> k < |chain.mined| && !chain.mined[k].ok
      ensures calm ==> r.Done? && |chain.mined| == k + 1 && chain.mined[k].ok
    {
      assert StepTrue(checkpoint.steps[k], k, chain, plan);
      var alive, ok := Wait(k, calm);
      if !alive {
        return Crashed(Waiting);
      }
      if !ok {
        return Threw(DidNotSucceed);
      }
      SetEvidence(k, TransactionEvidence(checkpoint.steps[k], k, ReceiptAddress(plan, chain.log[k])));
      SaveCheckpoint();
      return Done;
    }

    /** The transaction is sent, recorded and awaited. */
    method Transact(k: nat, payload: Payload, calm: bool) returns (r: Outcome)
      requires Running() && k < STEPS && IsPayload(k, payload)
      requires LatestCount(chain) == k == PendingCount(chain.log)
      requires forall j: nat | j < k :: StepDone(j, chain)
      modifies this
      ensures Running() && OnlyStep(k) && Sent(k, payload)
      ensures r in {Done, Crashed(AfterSend), Crashed(Waiting), Threw(DidNotSucceed)}
      ensures r.Done? ==> disk == Some(checkpoint) && checkpoint.steps[k] == old(checkpoint).steps[k].(
                            txHash := Some(k), evidence := Some(EvidenceOf(k, Some(k), false, plan)))
      ensures r in {Crashed(Waiting), Threw(DidNotSucceed)} ==> Recorded(k)
      ensures r == Threw(DidNotSucceed) ==> k < |chain.mined| && !chain.mined[k].ok
      ensures calm ==> r.Done? && |chain.mined| == k + 1 && chain.mined[k].ok
    {
      r := SendAndRecord(k, payload, calm);
      if r.Done? {
        r := Await(k, calm);
      }
    }

    /** `reconcileStep`, once nothing is recorded and no code is found. */
    method SendStep(k: nat, payload: Payload, calm: bool) returns (r: Outcome)
      requires Running() && k < STEPS && EvidencedUpTo(checkpoint, k) && IsPayload(k, payload)
      requires checkpoint.steps[k].evidence.None? && checkpoint.steps[k].txHash.None?
      modifies this
      ensures Running() && OnlyStep(k) && (chain.log == old(chain.log) || Sent(k, payload))
      ensures r.Done? ==> Sent(k, payload) && disk == Some(checkpoint) && checkpoint.steps[k] == old(checkpoint).steps[k].(
                                        txHash := Some(k),
                                        evidence := Some(EvidenceOf(k, Some(k), false, plan)))
      // Nothing is recorded unless it was sent; what was sent is recorded before it is awaited.
      ensures chain.log == old(chain.log) ==> checkpoint == old(checkpoint) && r in {Crashed(BeforeSend), Threw(AmbiguousNonce)}
      ensures Sent(k, payload) ==> r in {Done, Crashed(AfterSend), Crashed(Waiting), Threw(DidNotSucceed)}
      ensures r in {Crashed(Waiting), Threw(DidNotSucceed)} ==> Recorded(k)
      ensures r == Threw(AmbiguousNonce) ==> k < |chain.log|
      ensures r == Threw(DidNotSucceed) ==> k < |chain.mined| && !chain.mined[k].ok
      ensures calm && old(AllSucceeded()) && |old(chain).log| == k ==> r.Done? && AllSucceeded()
      ensures calm && k < |old(chain).log| ==> chain == old(chain)
    {
      StepsDone(k);
      r := CheckNonces(k, calm);
      if !r.Done? {
        return;
      }
      StepsDone(k);
      PendingIsLogLength(chain.log);
      r := Transact(k, payload, calm);
    }

    /** `reconcileStep`. */
    method ReconcileStep(k: nat, payload: Payload, calm: bool) returns (r: Outcome)
      requires Running() && k < STEPS && EvidencedUpTo(checkpoint, k) && IsPayload(k, payload)
      modifies this
      ensures Running() && OnlyStep(k) && (chain.log == old(chain.log) || Sent(k, payload))
      // A step that already has evidence costs nothing.
      ensures old(checkpoint).steps[k].evidence.Some? ==> r.Done? && checkpoint == old(checkpoint) && chain == old(chain) && disk == old(disk)
      // Success is evidence, in memory and in the file.
      ensures r.Done? ==> checkpoint.steps[k].evidence.Some?
      ensures r.Done? && old(checkpoint).steps[k].evidence.None? ==> disk == Some(checkpoint)
      // A transaction is sent only if none is recorded, and is recorded before it is awaited: only a
      // crash right after the broadcast leaves a sent transaction out of the file.
      ensures chain.log != old(chain.log) ==> old(checkpoint).steps[k].txHash.None?
      ensures chain.log != old(chain.log) && r.Done? ==> checkpoint.steps[k].txHash == Some(k)
      ensures chain.log != old(chain.log) && !r.Done? ==> r == Crashed(AfterSend) || Recorded(k)
      ensures r == Crashed(AfterSend) ==> chain.log != old(chain.log)
      // Every refusal says why.
      ensures r.Threw? ==> r.reason in {PendingOrUnknown, Reverted, AmbiguousNonce, DidNotSucceed} && k < |chain.log|
      ensures r in {Threw(PendingOrUnknown), Threw(Reverted)} ==> old(checkpoint).steps[k].txHash.Some?
      ensures r in {Threw(Reverted), Threw(DidNotSucceed)} ==> k < |chain.mined| && !chain.mined[k].ok
      // With nothing pending or reverted, the step completes exactly when it is next or can be recovered.
      ensures r.Done? ==> old(Recoverable(k))
      ensures calm && old(AllSucceeded()) && old(Recoverable(k)) ==> r.Done? && AllSucceeded()
      ensures calm && k < |old(chain).log| ==> chain == old(chain)
    {
      StepsDone(k);
      var step := checkpoint.steps[k];
      assert StepTrue(step, k, chain, plan);
      if step.evidence.Some? {
        return Done;
      }
      if step.txHash.Some? {
        r := SettleRecorded(k, calm);
        return;
      }
      r := RecoverOrSend(k, payload, calm);
    }

    /** `reconcileStep`, once nothing is recorded: code at the planned address is evidence. */
    method RecoverOrSend(k: nat, payload: Payload, calm: bool) returns (r: Outcome)
      requires Running() && k < STEPS && EvidencedUpTo(checkpoint, k) && IsPayload(k, payload)
      requires !OnRecord(checkpoint.steps[k])
      modifies this
      ensures Running() && OnlyStep(k) && (chain.log == old(chain.log) || Sent(k, payload))
      ensures r.Done? ==> checkpoint.steps[k].evidence.Some? && disk == Some(checkpoint)
      ensures r == Crashed(AfterSend) ==> chain.log != old(chain.log)
      ensures chain.log != old(chain.log) && r.Done? ==> checkpoint.steps[k].txHash == Some(k)
      ensures chain.log != old(chain.log) && !r.Done? ==> r == Crashed(AfterSend) || Recorded(k)
      ensures r.Threw? ==> r.reason in {AmbiguousNonce, DidNotSucceed} && k < |chain.log|
      ensures r == Threw(DidNotSucceed) ==> k < |chain.mined| && !chain.mined[k].ok
      ensures r.Done? ==> k < DEPLOYS || |old(chain).log| == k
      ensures calm && old(AllSucceeded()) && (k < DEPLOYS || |old(chain).log| == k) ==> r.Done? && AllSucceeded()
      ensures calm && k < |old(chain).log| ==> chain == old(chain)
    {
      StepsDone(k);
      var step := checkpoint.steps[k];
      assert StepTrue(step, k, chain, plan);
      if step.expectedContractAddress.Some? {
        var alive := Gap(calm);
        if !alive {
          return Crashed(BeforeSend);
        }
        CodeIffStepDone(chain, plan, k);
        if HasCode(chain, plan.deployer, step.expectedContractAddress.value) {
          Recover(k, None);
          return Done;
        }
      }
      r := SendStep(k, payload, calm);
    }

    /** The step is seen on chain though its record is missing: recovered evidence is written. */
    method Recover(k: nat, hash: Option<Hash>)
      requires Running() && k < STEPS && StepDone(k, chain)
      requires checkpoint.steps[k].evidence.None? && (hash == None || hash == checkpoint.steps[k].txHash)
      modifies this`checkpoint, this`disk
      ensures Running() && disk == Some(checkpoint)
      ensures checkpoint == old(checkpoint).(steps := old(checkpoint).steps[k := old(checkpoint).steps[k].(
                evidence := Some(EvidenceOf(k, hash, true, plan)))])
    {
      var step := checkpoint.steps[k];
      assert StepTrue(step, k, chain, plan);
      SetEvidence(k, RecoveredEvidence(step, hash, step.expectedContractAddress));
      SaveCheckpoint();
    }

    /** The effect of the step was seen on chain; that is recorded if nothing was. */
    method Attest(k: nat)
      requires Running() && k < STEPS && StepDone(k, chain)
      modifies this`checkpoint, this`disk
      ensures Running() && OnlyStep(k) && checkpoint.steps[k].evidence.Some?
      ensures old(checkpoint).steps[k].evidence.Some? ==> checkpoint == old(checkpoint) && disk == old(disk)
      ensures old(checkpoint).steps[k].evidence.None? ==> disk == Some(checkpoint)
    {
      if checkpoint.steps[k].evidence.None? {
        Recover(k, checkpoint.steps[k].txHash);
      }
    }

    /** `deployOrAttach`: afterwards the contract stands at its planned address. */
    method DeployOrAttach(k: nat, calm: bool) returns (r: Outcome)
      requires Running() && k < DEPLOYS && EvidencedUpTo(checkpoint, k)
      modifies this
      ensures Running() && Extends(old(chain), chain) && MintUntouched()
      ensures r.Threw? ==> r.reason in {PendingOrUnknown, Reverted, AmbiguousNonce, DidNotSucceed}
      ensures r.Done? ==> EvidencedUpTo(checkpoint, k + 1)
      ensures r.Done? ==> HasCode(chain, plan.deployer, checkpoint.contracts[k])
      ensures calm && old(AllSucceeded()) ==> r.Done? && AllSucceeded()
      ensures calm && !old(AllSucceeded()) ==> chain == old(chain)
    {
      StepsDone(k);
      r := ReconcileStep(k, CreateContract(k), calm);
      if !r.Done? {
        return;
      }
      assert StepTrue(checkpoint.steps[k], k, chain, plan);
      var alive := Gap(calm);
      if !alive {
        return Crashed(AfterStep);
      }
      CodeIffStepDone(chain, plan, k);
      assert checkpoint.contracts[k] == CreateAddress(plan.deployer, k);
      if !HasCode(chain, plan.deployer, checkpoint.contracts[k]) {
        assert false; // "has no code at its planned address" is never thrown
      }
    }

    /** `grantRole`: the role itself is the evidence when the record is missing. */
    method GrantRoleStep(k: nat, calm: bool) returns (r: Outcome)
      requires Running() && DEPLOYS <= k < MINT && EvidencedUpTo(checkpoint, k)
      modifies this
      ensures Running() && Extends(old(chain), chain) && MintUntouched()
      ensures r.Threw? ==> r.reason in {PendingOrUnknown, Reverted, AmbiguousNonce, DidNotSucceed}
      ensures r == Crashed(AfterSend) ==> chain.log != old(chain.log)
      ensures r.Done? ==> EvidencedUpTo(checkpoint, k + 1) && HasRole(chain, k - DEPLOYS)
      ensures calm && old(AllSucceeded()) ==> r.Done? && AllSucceeded()
      ensures calm && !old(AllSucceeded()) ==> chain == old(chain)
    {
      StepsDone(k);
      var alive := Gap(calm);
      if !alive {
        return Crashed(BeforeSend);
      }
      RoleIffStepDone(chain, k - DEPLOYS);
      if HasRole(chain, k - DEPLOYS) {
        Attest(k);
        return Done;
      }
      r := GrantMissing(k, calm);
    }

    method GrantMissing(k: nat, calm: bool) returns (r: Outcome)
      requires Running() && DEPLOYS <= k < MINT && EvidencedUpTo(checkpoint, k)
      modifies this
      ensures Running() && Extends(old(chain), chain) && MintUntouched()
      ensures r.Threw? ==> r.reason in {PendingOrUnknown, Reverted, AmbiguousNonce, DidNotSucceed}
      ensures r == Crashed(AfterSend) ==> chain.log != old(chain.log)
      ensures r.Done? ==> EvidencedUpTo(checkpoint, k + 1) && HasRole(chain, k - DEPLOYS)
      ensures calm && old(AllSucceeded()) && |old(chain).log| <= k ==> r.Done? && AllSucceeded()
      ensures calm && !old(AllSucceeded()) ==> chain == old(chain)
    {
      StepsDone(k);
      r := ReconcileStep(k, GrantRole(k - DEPLOYS), calm);
      if r.Done? {
        assert StepTrue(checkpoint.steps[k], k, chain, plan);
        RoleIffStepDone(chain, k - DEPLOYS);
      }
    }

    /** The mint block: only what the relay still lacks is minted, and only if the mint has no evidence. */
    method MintStep(relayFloat: nat, calm: bool) returns (r: Outcome)
      requires Running() && EvidencedUpTo(checkpoint, MINT) && relayFloat > 0
      modifies this
      ensures Running() && Extends(old(chain), chain)
      ensures r.Threw? ==> r.reason in {PendingOrUnknown, Reverted, AmbiguousNonce, DidNotSucceed, ExceedsPlan}
      ensures r == Crashed(AfterSend) ==> chain.log != old(chain.log)
      ensures r.Done? ==> EvidencedUpTo(checkpoint, STEPS)
      // The run that sends the mint decides the amount.
      ensures |old(chain).log| <= MINT < |chain.log| ==> MintAmount(chain) == relayFloat
      ensures r == Threw(ExceedsPlan) ==> MINT < |chain.log| && relayFloat < MintAmount(chain)
      ensures calm ==> (r == Threw(ExceedsPlan) <==> old(StepDone(MINT, chain) && relayFloat < MintAmount(chain)))
      ensures calm && old(AllSucceeded()) ==> (r.Done? <==> old(MintSettles(relayFloat))) && (r.Done? ==> AllSucceeded())
      ensures calm && !old(AllSucceeded()) ==> chain == old(chain)
    {
      StepsDone(MINT);
      var alive := Gap(calm);
      if !alive {
        return Crashed(BeforeSend);
      }
      RelayBalanceExact(chain);
      var currentRelayBalance := RelayBalance(chain);
      if currentRelayBalance > relayFloat {
        return Threw(ExceedsPlan);
      }
      if currentRelayBalance < relayFloat {
        r := ReconcileStep(MINT, MintRelay(relayFloat - currentRelayBalance), calm);
      } else {
        Attest(MINT);
        r := Done;
      }
    }

    /** Two of the six deployments, in program order. */
    method DeployTwo(first: nat, calm: bool) returns (r: Outcome)
      requires Running() && first + 2 <= DEPLOYS && EvidencedUpTo(checkpoint, first)
      modifies this
      ensures Running() && Extends(old(chain), chain) && MintUntouched()
      ensures r.Threw? ==> r.reason in {PendingOrUnknown, Reverted, AmbiguousNonce, DidNotSucceed}
      ensures r.Done? ==> EvidencedUpTo(checkpoint, first + 2)
      ensures calm && old(AllSucceeded()) ==> r.Done? && AllSucceeded()
      ensures calm && !old(AllSucceeded()) ==> chain == old(chain)
    {
      r := DeployOrAttach(first, calm);
      if r.Done? {
        r := DeployOrAttach(first + 1, calm);
      }
    }

    method DeployFour(calm: bool) returns (r: Outcome)
      requires Running()
      modifies this
      ensures Running() && Extends(old(chain), chain) && MintUntouched()
      ensures r.Threw? ==> r.reason in {PendingOrUnknown, Reverted, AmbiguousNonce, DidNotSucceed}
      ensures r.Done? ==> EvidencedUpTo(checkpoint, 4)
      ensures calm && old(AllSucceeded()) ==> r.Done? && AllSucceeded()
      ensures calm && !old(AllSucceeded()) ==> chain == old(chain)
    {
      r := DeployTwo(0, calm);
      if r.Done? {
        r := DeployTwo(2, calm);
      }
    }

    /** Token, governance and treasury; then registry, escrow implementation and factory. */
    method DeployContracts(calm: bool) returns (r: Outcome)
      requires Running()
      modifies this
      ensures Running() && Extends(old(chain), chain) && MintUntouched()
      ensures r.Threw? ==> r.reason in {PendingOrUnknown, Reverted, AmbiguousNonce, DidNotSucceed}
      ensures r.Done? ==> EvidencedUpTo(checkpoint, DEPLOYS)
      ensures calm && old(AllSucceeded()) ==> r.Done? && AllSucceeded()
      ensures calm && !old(AllSucceeded()) ==> chain == old(chain)
    {
      r := DeployFour(calm);
      if r.Done? {
        r := DeployTwo(4, calm);
      }
    }

    method GrantTwo(calm: bool) returns (r: Outcome)
      requires Running() && EvidencedUpTo(checkpoint, DEPLOYS)
      modifies this
      ensures Running() && Extends(old(chain), chain) && MintUntouched()
      ensures r.Threw? ==> r.reason in {PendingOrUnknown, Reverted, AmbiguousNonce, DidNotSucceed}
      ensures r.Done? ==> EvidencedUpTo(checkpoint, 8)
      ensures calm && old(AllSucceeded()) ==> r.Done? && AllSucceeded()
      ensures calm && !old(AllSucceeded()) ==> chain == old(chain)
    {
      r := GrantRoleStep(6, calm);
      if r.Done? {
        r := GrantRoleStep(7, calm);
      }
    }

    /** The three grants. */
    method GrantRoles(calm: bool) returns (r: Outcome)
      requires Running() && EvidencedUpTo(checkpoint, DEPLOYS)
      modifies this
      ensures Running() && Extends(old(chain), chain) && MintUntouched()
      ensures r.Threw? ==> r.reason in {PendingOrUnknown, Reverted, AmbiguousNonce, DidNotSucceed}
      ensures r.Done? ==> EvidencedUpTo(checkpoint, MINT)
      ensures calm && old(AllSucceeded()) ==> r.Done? && AllSucceeded()
      ensures calm && !old(AllSucceeded()) ==> chain == old(chain)
    {
      r := GrantTwo(calm);
      if r.Done? {
        r := GrantRoleStep(8, calm);
      }
    }

    /** The grants, the check of the relay's role and the mint. */
    method ConfigureContracts(relayFloat: nat, calm: bool) returns (r: Outcome)
      requires Running() && EvidencedUpTo(checkpoint, DEPLOYS) && relayFloat > 0
      modifies this
      ensures Running() && Extends(old(chain), chain)
      ensures r.Threw? ==> r.reason in {PendingOrUnknown, Reverted, AmbiguousNonce, DidNotSucceed, ExceedsPlan}
      ensures r.Done? ==> EvidencedUpTo(checkpoint, STEPS)
      ensures |old(chain).log| <= MINT < |chain.log| ==> MintAmount(chain) == relayFloat
      ensures calm && old(AllSucceeded()) ==> (r.Done? <==> old(MintSettles(relayFloat))) && (r.Done? ==> AllSucceeded())
      ensures calm && !old(AllSucceeded()) ==> chain == old(chain)
    {
      r := GrantRoles(calm);
      if !r.Done? {
        return;
      }
      var alive := Gap(calm);
      if !alive {
        return Crashed(AfterStep);
      }
      StepsDone(MINT);
      RelayRoleIffFactory(chain);
      if !HasRelayRole(chain) {
        assert false; // "relay role was not granted" is never thrown
      }
      r := MintStep(relayFloat, calm);
    }

    /** The file is this deployment's own. */
    predicate OwnFile()
      reads this
    {
      disk.Some? && ValidateCheckpoint(disk.value, plan)
    }

    /** The chain after a finished run: ten transactions, each in effect. */
    ghost predicate Complete()
      reads this
    {
      && |chain.log| == |chain.mined| == STEPS
      && AllSucceeded()
      && IsPayload(MINT, chain.log[MINT].payload)
      && (forall k: nat | k < DEPLOYS :: HasCode(chain, plan.deployer, CreateAddress(plan.deployer, k)))
      && (forall g: nat | g < MINT - DEPLOYS :: HasRole(chain, g))
      && HasRelayRole(chain)
      && RelayBalance(chain) == MintAmount(chain)
    }

    lemma EvidencedIsComplete()
      requires Running() && EvidencedUpTo(checkpoint, STEPS)
      ensures Complete()
    {
      StepsDone(STEPS);
      RelayBalanceExact(chain);
      RelayRoleIffFactory(chain);
      forall k: nat | k < DEPLOYS
        ensures HasCode(chain, plan.deployer, CreateAddress(plan.deployer, k))
      {
        CodeIffStepDone(chain, plan, k);
      }
      forall g: nat | g < MINT - DEPLOYS
        ensures HasRole(chain, g)
      {
        RoleIffStepDone(chain, g);
      }
    }

    /** The fresh/resume decision of `main`. */
    method Boot(funded: bool, calm: bool) returns (r: Outcome)
      requires Idle()
      modifies this
      ensures Idle() && Extends(old(chain), chain) && chain.log == old(chain.log)
      ensures r.Done? ==> Running() && funded
      ensures r in {Done, Crashed(Starting), Threw(NotFresh), Threw(ForeignCheckpoint), Threw(LowBalance)}
      // Only its own file, or an account that never sent anything, lets a run go on.
      ensures r in {Done, Threw(LowBalance)} ==> old(OwnFile()) || old(chain).log == []
      // A file of another chain, key, relay or schema is refused, and nothing is sent.
      ensures r == Threw(ForeignCheckpoint) <==> old(disk).Some? && var f := old(disk).value;
                (|| f.schemaVersion != 1 || f.chainId != plan.chainId || f.deployer != plan.deployer || f.relay != plan.relay
                 || f.initialNonce != 0
                 || f.contracts != [Created(plan.deployer, 0), Created(plan.deployer, 1), Created(plan.deployer, 2),
                                    Created(plan.deployer, 3), Created(plan.deployer, 4), Created(plan.deployer, 5)])
      ensures r == Threw(NotFresh) ==> chain.log != []
      ensures calm && funded ==> (r.Done? <==> old(OwnFile() || (disk.None? && chain.log == [])))
      ensures calm ==> chain == old(chain)
      // The run goes on with the file it read, or with a blank one that it has written.
      ensures r.Done? && old(disk).Some? ==> checkpoint == old(disk).value
      ensures r.Done? && old(disk).None? ==> checkpoint == CreateCheckpoint(plan, 0) && disk == Some(checkpoint)
      ensures calm && r.Done? ==> checkpoint == if old(OwnFile()) then old(disk).value else CreateCheckpoint(plan, EXPECTED_INITIAL_NONCE)
    {
      var alive;
      var checkpointExists := disk.Some?;
      if checkpointExists {
        OwnFileIff(disk.value);
        if !ValidateCheckpoint(disk.value, plan) {
          return Threw(ForeignCheckpoint);
        }
        checkpoint := disk.value;
      } else {
        var latestNonce := LatestCount(chain);
        alive := Gap(calm);
        if !alive {
          return Crashed(Starting);
        }
        PendingIsLogLength(chain.log);
        var pendingNonce := PendingCount(chain.log);
        if latestNonce != EXPECTED_INITIAL_NONCE || pendingNonce != EXPECTED_INITIAL_NONCE {
          return Threw(NotFresh);
        }
        checkpoint := CreateCheckpoint(plan, EXPECTED_INITIAL_NONCE);
      }
      alive := Gap(calm);
      if !alive {
        return Crashed(Starting);
      }
      if !funded {
        return Threw(LowBalance);
      }
      if !checkpointExists {
        SaveCheckpoint();
      }
      return Done;
    }

    /** The file records the mint. */
    predicate MintOnFile()
      reads this
    {
      disk.Some? && MINT < |disk.value.steps| && OnRecord(disk.value.steps[MINT])
    }

    /** `MintSettles`, seen from the file. */
    ghost predicate MintSettlesOnFile(relayFloat: nat)
      requires ChainOk(chain)
      reads this
    {
      || |chain.log| <= MINT
      || MintAmount(chain) == relayFloat
      || (MintAmount(chain) < relayFloat && MintOnFile())
    }

    /** `main`, with the amount this run is to mint. */
    method RunScript(relayFloat: nat, funded: bool, calm: bool) returns (r: Outcome)
      requires Idle() && relayFloat > 0
      modifies this
      ensures Idle() && Extends(old(chain), chain)
      // Without its own file, a deployment that ever sent anything is refused: nothing is sent.
      ensures !old(OwnFile()) && old(chain).log != [] ==>
                r in {Threw(NotFresh), Threw(ForeignCheckpoint), Crashed(Starting)} && chain.log == old(chain.log)
      ensures !funded ==> !r.Done? && chain.log == old(chain.log)
      // A file of another chain, key, relay or schema is refused, and nothing is sent.
      ensures r == Threw(ForeignCheckpoint) <==> old(disk).Some? && var f := old(disk).value;
                (|| f.schemaVersion != 1 || f.chainId != plan.chainId || f.deployer != plan.deployer || f.relay != plan.relay
                 || f.initialNonce != 0
                 || f.contracts != [Created(plan.deployer, 0), Created(plan.deployer, 1), Created(plan.deployer, 2),
                                    Created(plan.deployer, 3), Created(plan.deployer, 4), Created(plan.deployer, 5)])
      ensures r == Threw(ForeignCheckpoint) ==> chain.log == old(chain.log)
      // When the script finishes, the chain holds exactly the ten transactions, all in effect,
      // and the process has evidence of every step.
      ensures r.Done? ==> Complete() && Running() && EvidencedUpTo(checkpoint, STEPS)
      // The relay then holds what this run was to mint if and only if the mint was not sent before, or
      // with this amount.
      ensures r.Done? ==> (RelayBalance(chain) == relayFloat <==> |old(chain).log| <= MINT || MintAmount(old(chain)) == relayFloat)
      ensures |old(chain).log| <= MINT < |chain.log| ==> MintAmount(chain) == relayFloat
      // From any state a crash may leave, a rerun that is left alone completes exactly when the file
      // is intact (or nothing was ever sent), no transaction is pending or reverted, and the mint
      // does not conflict with one already sent.
      ensures calm && funded ==>
                (r.Done? <==> old(AllSucceeded()) && old(OwnFile() || (disk.None? && chain.log == [])) && old(MintSettlesOnFile(relayFloat)))
    {
      r := Boot(funded, calm);
      if !r.Done? {
        return;
      }
      assert calm ==> MintSettles(relayFloat) == old(MintSettlesOnFile(relayFloat));
      r := Proceed(relayFloat, calm);
    }

    /** `main`, once it has its checkpoint. */
    method Proceed(relayFloat: nat, calm: bool) returns (r: Outcome)
      requires Running() && relayFloat > 0
      modifies this
      ensures Running() && Extends(old(chain), chain)
      ensures r.Threw? ==> r.reason in {PendingOrUnknown, Reverted, AmbiguousNonce, DidNotSucceed, ExceedsPlan}
      ensures r.Done? ==> Complete() && EvidencedUpTo(checkpoint, STEPS)
      ensures |old(chain).log| <= MINT < |chain.log| ==> MintAmount(chain) == relayFloat
      ensures calm ==> (r.Done? <==> old(AllSucceeded()) && old(MintSettles(relayFloat)))
    {
      r := DeployContracts(calm);
      if r.Done? {
        r := ConfigureContracts(relayFloat, calm);
      }
      if r.Done? {
        EvidencedIsComplete();
      }
    }

    /** After a finished deployment, a run with a larger amount finishes too, and mints nothing. */
    method RerunWithMore(relayFloat: nat) returns (r: Outcome)
      requires Idle() && AllSucceeded() && OwnFile() && MintOnFile()
      requires MINT < |chain.log| && MintAmount(chain) < relayFloat
      modifies this
      ensures r.Done? && chain.log == old(chain.log) && RelayBalance(chain) == MintAmount(old(chain)) < relayFloat
    {
      r := RunScript(relayFloat, true, true);
    }

    /** Any number of runs, each with an amount of its own, each of which may die anywhere, be refused,
        or finish. At most one mint is ever sent, with the amount of one of them. */
    method Operate(amounts: seq<nat>)
      requires Idle() && forall a | a in amounts :: a > 0
      modifies this
      ensures Idle() && Extends(old(chain), chain)
      ensures forall i: nat, j: nat | i < |chain.log| && j < |chain.log| && chain.log[i].nonce == chain.log[j].nonce :: i == j
      ensures forall k: nat | k < |chain.log| :: IsPayload(k, chain.log[k].payload)
      ensures |old(chain).log| <= MINT < |chain.log| ==> MintAmount(chain) in amounts
      ensures RelayBalance(chain) == if StepDone(MINT, chain) then MintAmount(chain) else 0
    {
      for n := 0 to |amounts|
        invariant Idle() && Extends(old(chain), chain)
        invariant |old(chain).log| <= MINT < |chain.log| ==> MintAmount(chain) in amounts
      {
        var funded: bool := *;
        var running := Gap(false);
        assert amounts[n] in amounts;
        var r := RunScript(amounts[n], funded, false);
      }
      RelayBalanceExact(chain);
    }

    /** Evidence for every step before `k` means they all took effect. */
    lemma StepsDone(k: nat)
      requires Running() && k <= STEPS && EvidencedUpTo(checkpoint, k)
      ensures forall j: nat | j < k :: StepDone(j, chain)
      ensures k <= |chain.mined|
      ensures k < |chain.log| || AllSucceeded()
    {
      forall j: nat | j < k
        ensures StepDone(j, chain)
      {
        assert StepTrue(checkpoint.steps[j], j, chain, plan);
      }
      if k > 0 {
        assert StepDone(k - 1, chain);
      }
    }
  }
}
