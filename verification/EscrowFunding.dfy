/**
 Funding an escrow so that the call can be repeated after an interruption
 (services/user-service/scripts/amoy-web3signer-acceptance.ts), against the escrow
 contract it calls (contracts/contracts/EscrowImplementation.sol).
 */
module EscrowFunding {
  import opened Outcomes
  import opened DisputeSplit

  datatype Status = Uninitialized | AwaitingFunding | Funded | Released | Refunded | Disputed | Resolved | Cancelled | Expired

  /** The number the contract's enumeration gives a status. */
  function Code(s: Status): nat {
    match s
    case Uninitialized => 0
    case AwaitingFunding => 1
    case Funded => 2
    case Released => 3
    case Refunded => 4
    case Disputed => 5
    case Resolved => 6
    case Cancelled => 7
    case Expired => 8
  }

  /** It is the status's position in the enumeration. */
  lemma CodeIsPosition(s: Status)
    ensures Code(s) < 9
    ensures [Uninitialized, AwaitingFunding, Funded, Released, Refunded, Disputed, Resolved, Cancelled, Expired][Code(s)] == s
  {
  }

  datatype Tx = Transfer(value: nat) | NotifyFunded

  /**
   The escrow, the relay's account and what has happened to them. The transactions the relay has sent
   are mined in order; `receipts[n]` says whether `sent[n]` succeeded.
   */
  datatype Chain = Chain(
    terms: Terms,
    status: Status,
    balance: nat,
    late: bool,             // the funding deadline has passed
    relayTokens: nat,
    sent: seq<Tx>,
    receipts: seq<bool>,
    opening: nat,           // balance of the escrow at the start
    deposited: nat,         // tokens that others have sent to it, the opening balance included
    debits: seq<nat>,       // what the relay's transfers have moved
    paidOut: nat,
    funded: bool,           // `notifyFunded` has succeeded
    drained: bool)          // an unfunded escrow's tokens have been rescued

  function Required(c: Chain): nat {
    c.terms.amount + c.terms.buyerFee
  }

  function Sum(s: seq<nat>): nat {
    if s == [] then 0 else Sum(s[..|s| - 1]) + s[|s| - 1]
  }

  /** No transaction of the relay is waiting to be mined. */
  predicate Settled(c: Chain) {
    |c.sent| == |c.receipts|
  }

  // ---------- What can happen on chain ----------

  datatype Event =
    | Deposit(value: nat)
    | Deadline(late: bool)
    | RelayTokens(value: nat)
    | Cancel
    | Expire
    | Release
    | Refund
    | Dispute
    | Resolve(buyerSharePct: nat)
    | Rescue
    | Mine

  function Sent(c: Chain, tx: Tx): Chain {
    c.(sent := c.sent + [tx])
  }

  predicate NotifySucceeds(c: Chain) {
    c.status.AwaitingFunding? && !c.late && Required(c) <= c.balance
  }

  /** The first pending transaction is mined; it may revert. */
  function Mined(c: Chain): Chain
    requires |c.receipts| < |c.sent|
  {
    var accepted := c.(receipts := c.receipts + [true]);
    var reverted := c.(receipts := c.receipts + [false]);
    match c.sent[|c.receipts|]
    case Transfer(v) =>
      if v <= c.relayTokens
      then accepted.(balance := c.balance + v, relayTokens := c.relayTokens - v, debits := c.debits + [v])
      else reverted
    case NotifyFunded =>
      if NotifySucceeds(c) then accepted.(status := Funded, funded := true) else reverted
  }

  function PaidOut(c: Chain, value: nat, status: Status): Chain
    requires value <= c.balance
  {
    c.(status := status, balance := c.balance - value, paidOut := c.paidOut + value)
  }

  /** The arbitrator's decision pays out the split of the balance. */
  function Decided(c: Chain, buyerSharePct: nat): Chain
    requires c.terms.amount <= c.balance && buyerSharePct <= SHARES
  {
    SplitConserves(c.terms, c.balance, buyerSharePct);
    PaidOut(c, Outflow(ResolveSplit(c.terms, c.balance, buyerSharePct)), Resolved)
  }

  /** The effect of an event; one whose guard fails reverts and changes nothing. */
  function Step(c: Chain, e: Event): Chain {
    match e
    case Deposit(v) => c.(balance := c.balance + v, deposited := c.deposited + v)
    case Deadline(late) => c.(late := late)
    case RelayTokens(v) => c.(relayTokens := v)
    case Cancel => if c.status.AwaitingFunding? then c.(status := Cancelled) else c
    case Expire => if c.status.AwaitingFunding? && c.late then c.(status := Expired) else c
    case Release =>
      if c.status.Funded? && Required(c) <= c.balance && c.terms.sellerFee <= c.terms.amount then PaidOut(c, Required(c), Released) else c
    case Refund => if c.status.Funded? && Required(c) <= c.balance then PaidOut(c, Required(c), Refunded) else c
    case Dispute => if c.status.Funded? then c.(status := Disputed) else c
    case Resolve(pct) => if c.status.Disputed? && pct <= SHARES && c.terms.amount <= c.balance then Decided(c, pct) else c
    case Rescue =>
      if c.balance == 0 then c
      else if c.status.Cancelled? || c.status.Expired? then PaidOut(c, c.balance, c.status).(drained := true)
      else if c.status.Released? || c.status.Refunded? || c.status.Resolved? then PaidOut(c, c.balance, c.status)
      else c
    case Mine => if |c.receipts| < |c.sent| then Mined(c) else c
  }

  // ---------- Invariants ----------

  /** If a `notifyFunded` has succeeded, the escrow has been funded. */
  ghost predicate NotifiedIsFunded(sent: seq<Tx>, receipts: seq<bool>, funded: bool) {
    |receipts| <= |sent| && forall n | 0 <= n < |receipts| && receipts[n] && sent[n].NotifyFunded? :: funded
  }

  /**
   Of every run: the statuses from 2 to 6 are the funded ones, a funded escrow that has not paid
   covers what it owes, and no token appears or is lost.
   */
  ghost predicate Sound(c: Chain) {
    && !c.status.Uninitialized?
    && NotifiedIsFunded(c.sent, c.receipts, c.funded)
    && (c.funded <==> 2 <= Code(c.status) <= 6)
    && (c.drained ==> c.status.Cancelled? || c.status.Expired?)
    && (c.status.Funded? || c.status.Disputed? ==> Required(c) <= c.balance)
    && c.balance + c.paidOut == c.deposited + Sum(c.debits)
    && c.opening <= c.deposited
    && (c.funded ==> Required(c) <= c.deposited + Sum(c.debits))
    && (!c.funded && !c.drained ==> c.paidOut == 0)
  }

  /** `debit` is the shortfall of the opening balance, less what others have sent since. */
  predicate IsShortfall(c: Chain, debit: nat) {
    && debit + c.opening <= Required(c)
    && (c.deposited == c.opening ==> debit == Required(c) - c.opening)
  }

  /** Of a run in which no call begins with a transaction of the relay still pending. */
  ghost predicate Once(c: Chain) {
    && |c.receipts| <= |c.sent| <= |c.receipts| + 1
    && (!Settled(c) && c.sent[|c.receipts|].Transfer? && !c.drained ==>
          && c.debits == []
          && !c.funded
          && Required(c) <= c.balance + c.sent[|c.receipts|].value
          && IsShortfall(c, c.sent[|c.receipts|].value))
    && (c.debits != [] && !c.drained ==>
          && |c.debits| == 1
          && IsShortfall(c, c.debits[0])
          && (c.funded || Required(c) <= c.balance))
  }

  ghost predicate IsPrefix<T>(s: seq<T>, t: seq<T>) {
    |s| <= |t| && forall i | 0 <= i < |s| :: s[i] == t[i]
  }

  /** What stays true on the way from `c` to `d`. */
  ghost predicate Later(c: Chain, d: Chain) {
    && c.terms == d.terms && c.opening == d.opening
    && (c.funded ==> d.funded)
    && (c.drained ==> d.drained)
    && (c.status.Cancelled? ==> d.status.Cancelled?)
    && (c.status.Expired? ==> d.status.Expired?)
    && c.deposited <= d.deposited
    && IsPrefix(c.receipts, d.receipts)
    && IsPrefix(c.sent, d.sent)
  }

  /** The same, when the relay has nothing pending: only others can have acted. */
  ghost predicate WithoutRelay(c: Chain, d: Chain) {
    && c.sent == d.sent
    && (Settled(c) ==>
      && c.receipts == d.receipts && c.debits == d.debits && c.funded == d.funded
      && (!d.funded && !d.drained ==> c.balance <= d.balance))
  }

  lemma SumSnoc(s: seq<nat>, v: nat)
    ensures Sum(s + [v]) == Sum(s) + v
  {
    assert (s + [v])[..|s|] == s;
  }

  lemma NotifiedSnoc(sent: seq<Tx>, receipts: seq<bool>, funded: bool, ok: bool, funded': bool)
    requires NotifiedIsFunded(sent, receipts, funded) && |receipts| < |sent|
    requires funded ==> funded'
    requires ok && sent[|receipts|].NotifyFunded? ==> funded'
    ensures NotifiedIsFunded(sent, receipts + [ok], funded')
  {
  }

  lemma MinedKeepsSound(c: Chain)
    requires Sound(c) && |c.receipts| < |c.sent|
    ensures Sound(Mined(c))
  {
    var d := Mined(c);
    assert NotifiedIsFunded(d.sent, d.receipts, d.funded) by {
      NotifiedSnoc(c.sent, c.receipts, c.funded, d.receipts[|c.receipts|], d.funded);
    }
    if c.sent[|c.receipts|].Transfer? {
      SumSnoc(c.debits, c.sent[|c.receipts|].value);
    }
  }

  lemma StepKeepsSound(c: Chain, e: Event)
    requires Sound(c)
    ensures Sound(Step(c, e))
  {
    if e.Mine? && |c.receipts| < |c.sent| {
      MinedKeepsSound(c);
    }
  }

  /** The life of an escrow: these are all the ways in which an event changes its status. */
  lemma StatusMoves(c: Chain, e: Event)
    ensures var s, t := c.status, Step(c, e).status;
            || s == t
            || (s.AwaitingFunding? && t.Funded? && e.Mine? && !c.late && c.terms.amount + c.terms.buyerFee <= c.balance)
            || (s.AwaitingFunding? && t.Cancelled? && e.Cancel?)
            || (s.AwaitingFunding? && t.Expired? && e.Expire? && c.late)
            || (s.Funded? && t.Released? && e.Release? && c.terms.sellerFee <= c.terms.amount)
            || (s.Funded? && t.Refunded? && e.Refund?)
            || (s.Funded? && t.Disputed? && e.Dispute?)
            || (s.Disputed? && t.Resolved? && e.Resolve? && e.buyerSharePct <= 100)
  {
  }

  /** No token is stuck: whatever has happened, a funded escrow can be paid out or disputed, a dispute can
      be decided either way, and what is left in an escrow that is over can be rescued. */
  lemma WaysOut(c: Chain, pct: nat)
    requires Sound(c) && pct <= 100
    ensures c.status.Funded? ==>
              var price := c.terms.amount + c.terms.buyerFee;
              && Step(c, Refund).status.Refunded? && Step(c, Refund).paidOut == c.paidOut + price
              && Step(c, Dispute).status.Disputed?
              && (c.terms.sellerFee <= c.terms.amount ==>
                    Step(c, Release).status.Released? && Step(c, Release).paidOut == c.paidOut + price)
    ensures c.status.Disputed? ==> Step(c, Resolve(pct)).status.Resolved? && Step(c, Resolve(pct)).balance == 0
    ensures !c.status.AwaitingFunding? && !c.status.Funded? && !c.status.Disputed? ==>
              Step(c, Rescue).balance == 0 && Step(c, Rescue).status == c.status
  {
    if c.status.Disputed? {
      SplitConserves(c.terms, c.balance, pct);
    }
  }

  predicate PaysOut(e: Event) {
    e.Release? || e.Refund? || e.Resolve? || e.Rescue?
  }

  lemma MinedKeepsOnce(c: Chain)
    requires Sound(c) && Once(c) && !Settled(c)
    ensures Once(Mined(c))
  {
  }

  lemma PayoutKeepsOnce(c: Chain, e: Event)
    requires Sound(c) && Once(c) && PaysOut(e)
    ensures Once(Step(c, e))
  {
  }

  lemma StepKeepsOnce(c: Chain, e: Event)
    requires Sound(c) && Once(c)
    ensures Once(Step(c, e))
  {
    if e.Mine? {
      if !Settled(c) {
        MinedKeepsOnce(c);
      }
    } else if PaysOut(e) {
      PayoutKeepsOnce(c, e);
    }
  }

  lemma MinedIsLater(c: Chain)
    requires Sound(c) && !Settled(c)
    ensures Later(c, Mined(c)) && WithoutRelay(c, Mined(c))
  {
  }

  lemma StepIsLater(c: Chain, e: Event)
    requires Sound(c)
    ensures Later(c, Step(c, e)) && WithoutRelay(c, Step(c, e))
  {
    if e.Mine? {
      if !Settled(c) {
        MinedIsLater(c);
      }
    } else if PaysOut(e) {
      PayoutIsLater(c, e);
    } else {
      OthersAreLater(c, e);
    }
  }

  lemma PayoutIsLater(c: Chain, e: Event)
    requires Sound(c) && PaysOut(e)
    ensures Later(c, Step(c, e)) && WithoutRelay(c, Step(c, e))
  {
    var d := Step(c, e);
    assert c.sent == d.sent && c.receipts == d.receipts && c.debits == d.debits && c.funded == d.funded;
  }

  lemma OthersAreLater(c: Chain, e: Event)
    requires Sound(c) && !e.Mine? && !PaysOut(e)
    ensures Later(c, Step(c, e)) && WithoutRelay(c, Step(c, e))
  {
    var d := Step(c, e);
    assert c.sent == d.sent && c.receipts == d.receipts && c.debits == d.debits && c.funded == d.funded;
    assert c.drained == d.drained && c.balance <= d.balance;
  }

  lemma LaterTransitive(c: Chain, d: Chain, e: Chain)
    requires Later(c, d) && Later(d, e)
    ensures Later(c, e)
  {
  }

  lemma WithoutRelayTransitive(c: Chain, d: Chain, e: Chain)
    requires Later(c, d) && Later(d, e) && WithoutRelay(c, d) && WithoutRelay(d, e)
    ensures WithoutRelay(c, e)
  {
  }

  /**
   The relay sends the shortfall it read at `c`, when nothing of it was pending, at the later `d`.
   */
  lemma SendKeepsOnce(c: Chain, d: Chain)
    requires Sound(c) && Once(c) && Settled(c) && !c.funded && c.balance < Required(c)
    requires Sound(d) && Once(d) && Later(c, d) && WithoutRelay(c, d)
    ensures Once(Sent(d, Transfer(Required(c) - c.balance)))
  {
    if !d.drained {
      assert c.debits == [] && c.balance == c.deposited;
    }
  }

  // ---------- One call that nobody disturbs ----------

  predicate AlreadyFunded(s: Status) {
    2 <= Code(s) <= 7
  }

  /** The shortfall, and whether the relay can pay it. */
  function Shortfall(c: Chain): nat {
    if c.balance < Required(c) then Required(c) - c.balance else 0
  }

  /** Whatever is pending is mined. */
  function Settle(c: Chain): (d: Chain)
    requires |c.receipts| <= |c.sent|
    ensures Settled(d) && d.sent == c.sent
    decreases |c.sent| - |c.receipts|
  {
    if Settled(c) then c else Settle(Mined(c))
  }

  /** The transfer of the call is sent if anything is missing, and mined with all that was pending. */
  function Transferred(c: Chain): (d: Chain)
    requires |c.receipts| <= |c.sent|
    ensures |d.receipts| <= |d.sent|
  {
    if Shortfall(c) == 0 then c else Settle(Sent(c, Transfer(Shortfall(c))))
  }

  /** What a call makes of the chain when nothing happens meanwhile but the mining it waits for. */
  function Forwarded(c: Chain, stopAfterTransfer: bool): Chain
    requires |c.receipts| <= |c.sent|
  {
    if AlreadyFunded(c.status) then c else PaidAndNotified(c, stopAfterTransfer)
  }

  /** What the rest of it makes of the chain, once the status has let it through. */
  function PaidAndNotified(c: Chain, stopAfterTransfer: bool): Chain
    requires |c.receipts| <= |c.sent|
  {
    var t := Transferred(c);
    if stopAfterTransfer || (Shortfall(c) > 0 && !t.receipts[|c.sent|]) then t else Settle(Sent(t, NotifyFunded))
  }

  lemma SettleOne(c: Chain, tx: Tx)
    requires Settled(c)
    ensures Settle(Sent(c, tx)) == Mined(Sent(c, tx))
  {
  }

  lemma TransferredIs(c: Chain)
    requires Settled(c) && 0 < Shortfall(c)
    ensures var s := Shortfall(c);
            Transferred(c) ==
            if s <= c.relayTokens
            then c.(sent := c.sent + [Transfer(s)], receipts := c.receipts + [true], balance := Required(c),
                    relayTokens := c.relayTokens - s, debits := c.debits + [s])
            else c.(sent := c.sent + [Transfer(s)], receipts := c.receipts + [false])
  {
    SettleOne(c, Transfer(Shortfall(c)));
  }

  lemma NotifiedIs(c: Chain)
    requires Settled(c)
    ensures Settle(Sent(c, NotifyFunded)) ==
            if NotifySucceeds(c)
            then c.(sent := c.sent + [NotifyFunded], receipts := c.receipts + [true], status := Funded, funded := true)
            else c.(sent := c.sent + [NotifyFunded], receipts := c.receipts + [false])
  {
    SettleOne(c, NotifyFunded);
  }

  /** Undisturbed, the call leaves a funded escrow if and only if it was funded before, or awaits funding
      in time and the relay can pay what is missing; and then the debit is exactly the shortfall. */
  lemma ForwardFunds(c: Chain)
    requires Sound(c) && Settled(c)
    ensures Forwarded(c, false).funded <==>
            c.funded || (c.status.AwaitingFunding? && !c.late && c.terms.amount + c.terms.buyerFee <= c.balance + c.relayTokens)
    ensures var d := Forwarded(c, false);
            d.funded && !c.funded ==>
              && d.status.Funded? && c.terms.amount + c.terms.buyerFee <= d.balance
              && c.balance + c.relayTokens == d.balance + d.relayTokens
              && d.debits == (if c.balance < d.balance then c.debits + [d.balance - c.balance] else c.debits)
              && (c.balance < d.balance ==> d.balance == c.terms.amount + c.terms.buyerFee)
  {
    if 0 < Shortfall(c) {
      TransferredIs(c);
    }
    if !AlreadyFunded(c.status) && Settled(Transferred(c)) {
      NotifiedIs(Transferred(c));
    }
  }

  /** A call that stopped after the transfer and the call that resumes it do what one call does. */
  lemma ResumeIsOneCall(c: Chain)
    requires Sound(c) && Settled(c) && Shortfall(c) <= c.relayTokens
    ensures Settled(Forwarded(c, true))
    ensures Forwarded(Forwarded(c, true), false) == Forwarded(c, false)
  {
    if 0 < Shortfall(c) {
      TransferredIs(c);
    }
  }

  function Run(c: Chain, events: seq<Event>): Chain {
    if events == [] then c else Step(Run(c, events[..|events| - 1]), events[|events| - 1])
  }

  lemma {:induction false} RunKeeps(c: Chain, events: seq<Event>)
    requires Sound(c) && Settled(c)
    ensures Sound(Run(c, events)) && Later(c, Run(c, events)) && WithoutRelay(c, Run(c, events))
    ensures var d := Run(c, events);
            && d.balance + d.paidOut == d.deposited + Sum(d.debits)
            && (d.funded ==> c.terms.amount + c.terms.buyerFee <= d.deposited + Sum(d.debits))
            && (d.status.Funded? || d.status.Disputed? ==> c.terms.amount + c.terms.buyerFee <= d.balance)
  {
    if events != [] {
      var front := events[..|events| - 1];
      var mid := Run(c, front);
      RunKeeps(c, front);
      StepKeepsSound(mid, events[|events| - 1]);
      StepIsLater(mid, events[|events| - 1]);
      LaterTransitive(c, mid, Run(c, events));
      WithoutRelayTransitive(c, mid, Run(c, events));
    }
  }

  lemma RunThree(c: Chain, e: Event, f: Event, g: Event)
    ensures Run(c, [e, f, g]) == Step(Step(Step(c, e), f), g)
  {
    assert [e, f, g][..2] == [e, f] && [e, f][..1] == [e] && [e][..0] == [];
    assert Run(c, [e]) == Step(c, e);
  }

  /** Once funded, every later call changes nothing, also after the escrow has paid everything out. */
  lemma FundedIsFinal(c: Chain, events: seq<Event>, stopAfterTransfer: bool)
    requires Sound(c) && Settled(c) && c.funded
    ensures Settled(Run(c, events)) && Forwarded(Run(c, events), stopAfterTransfer) == Run(c, events)
    ensures Run(c, events).debits == c.debits
  {
    RunKeeps(c, events);
  }

  /**
   After its first debit, the relay is debited by another, undisturbed call exactly when the escrow
   has expired and been emptied below what it requires (and the relay can pay).
   */
  lemma DebitsAgainIff(c: Chain, stopAfterTransfer: bool)
    requires Sound(c) && Once(c) && Settled(c) && c.debits != []
    ensures Forwarded(c, stopAfterTransfer).debits != c.debits
            <==> c.status.Expired? && 0 < Shortfall(c) <= c.relayTokens
    ensures c.status.Expired? && 0 < Shortfall(c) ==> c.drained
  {
    if 0 < Shortfall(c) {
      TransferredIs(c);
    }
    if !AlreadyFunded(c.status) && Settled(Transferred(c)) {
      NotifiedIs(Transferred(c));
    }
  }

  /**
   The same for a call that is disturbed: it reads the status at `s`, the balance at `c`, and its
   transfer is mined at `d`. After a first debit it debits the relay again exactly when the escrow has
   been emptied unfunded by the time its balance is read, and the relay can pay what is missing then.
   */
  lemma DebitsAgainMidCallIff(s: Chain, c: Chain, d: Chain)
    requires Sound(s) && Once(s) && Settled(s) && s.debits != [] && !AlreadyFunded(s.status)
    requires Sound(c) && Once(c) && Later(s, c) && WithoutRelay(s, c)
    requires Sound(d) && Later(c, d) && WithoutRelay(c, d)
    ensures 0 < Shortfall(c) && |Mined(Sent(d, Transfer(Shortfall(c)))).debits| > |s.debits|
            <==> c.drained && 0 < Shortfall(c) <= d.relayTokens
  {
    assert Settled(c) && Settled(d) && c.debits == s.debits == d.debits;
  }

  /** Cancelled and rescued between the two reads, an escrow is paid for a second time, in vain. */
  lemma CancelledMidCall(c: Chain)
    requires Settled(c) && c.status.AwaitingFunding? && 0 < c.balance && 0 < Required(c) <= c.relayTokens
    ensures var d := Run(c, [Cancel, Rescue]);
            && !AlreadyFunded(c.status) && d.status.Cancelled? && Settled(d) && Shortfall(d) == Required(c)
            && Mined(Sent(d, Transfer(Shortfall(d)))).debits == c.debits + [Required(c)]
            && Mined(Sent(d, Transfer(Shortfall(d)))).status.Cancelled?
  {
    RunTwo(c, Cancel, Rescue);
  }

  lemma RunTwo(c: Chain, e: Event, f: Event)
    ensures Run(c, [e, f]) == Step(Step(c, e), f)
  {
    assert [e, f][..1] == [e] && [e][..0] == [];
    assert Run(c, [e]) == Step(c, e);
  }

  lemma RescuedIs(c: Chain)
    requires c.status.AwaitingFunding? && 0 < c.balance
    ensures Run(c, [Deadline(true), Expire, Rescue])
            == c.(late := true, status := Expired, balance := 0, paidOut := c.paidOut + c.balance, drained := true)
  {
    RunThree(c, Deadline(true), Expire, Rescue);
  }

  /**
   The relay pays twice: the call stopped after its transfer, the escrow expired and was rescued,
   and the repeated call transfers the whole amount again to an escrow that can no longer be funded.
   */
  lemma ExpiredDebitsTwice(c: Chain)
    requires Settled(c) && c.status.AwaitingFunding? && 0 < Shortfall(c) && Shortfall(c) + Required(c) <= c.relayTokens
    ensures var d := Run(Forwarded(c, true), [Deadline(true), Expire, Rescue]);
            && Settled(d)
            && Forwarded(d, false).debits == c.debits + [Shortfall(c), Required(c)]
            && Forwarded(d, false).status.Expired?
  {
    TransferredIs(c);
    RescuedIs(Transferred(c));
    var d := Run(Forwarded(c, true), [Deadline(true), Expire, Rescue]);
    TransferredIs(d);
    NotifiedIs(Transferred(d));
    assert c.debits + [Shortfall(c)] + [Required(c)] == c.debits + [Shortfall(c), Required(c)];
  }

  /**
   Whatever the calls and interruptions were, a funded escrow to which nobody else has sent anything
   has cost the relay exactly what was missing at the start.
   */
  lemma FundedForTheShortfall(c: Chain)
    requires Sound(c) && Once(c) && c.funded && c.deposited == c.opening
    ensures var price := c.terms.amount + c.terms.buyerFee;
            Sum(c.debits) == if c.opening < price then price - c.opening else 0
  {
    if c.debits != [] {
      SumSnoc([], c.debits[0]);
      assert c.debits == [] + [c.debits[0]];
    }
  }

  /** A cancelled escrow is reported as already funded although it never was. */
  lemma CancelledCountsAsFunded(c: Chain, stopAfterTransfer: bool)
    requires Sound(c) && Settled(c)
    ensures AlreadyFunded(c.status) <==> c.funded || c.status.Cancelled?
    ensures c.status.AwaitingFunding? ==>
              var d := Step(c, Cancel);
              AlreadyFunded(d.status) && !d.funded && Forwarded(d, stopAfterTransfer) == d
  {
  }

  // ---------- Calls that begin with something pending ----------

  predicate SendsTransfer(c: Chain, d: Chain) {
    exists n | |c.sent| <= n < |d.sent| :: d.sent[n].Transfer?
  }

  /** Whatever is pending, the call sends a transfer exactly when the status lets it through and the
      balance, without what is pending, is too small. */
  lemma SendsTransferIff(c: Chain, stopAfterTransfer: bool)
    requires |c.receipts| <= |c.sent|
    ensures SendsTransfer(c, Forwarded(c, stopAfterTransfer)) <==> !AlreadyFunded(c.status) && 0 < Shortfall(c)
  {
    var d := Forwarded(c, stopAfterTransfer);
    if !AlreadyFunded(c.status) && 0 < Shortfall(c) {
      assert d.sent[|c.sent|].Transfer?;
    }
  }

  /** With a transfer of `v` pending, the call ends in two more debits exactly when it sends its own
      and the relay can pay both. */
  lemma TwoDebitsIff(c: Chain, v: nat, stopAfterTransfer: bool)
    requires |c.sent| == |c.receipts| + 1 && c.sent[|c.receipts|] == Transfer(v)
    ensures |Forwarded(c, stopAfterTransfer).debits| == |c.debits| + 2 <==>
            !AlreadyFunded(c.status) && 0 < Shortfall(c) && v + Shortfall(c) <= c.relayTokens
    ensures |Forwarded(c, stopAfterTransfer).debits| == |c.debits| + 2 ==>
              Forwarded(c, stopAfterTransfer).debits == c.debits + [v, Shortfall(c)]
  {
    if !AlreadyFunded(c.status) {
      var t := Transferred(c);
      if 0 < Shortfall(c) {
        BothMined(c, v, Shortfall(c));
        NotifiedIs(t);
      } else {
        NotifiedAfter(c, v);
      }
    }
  }

  lemma BothMined(c: Chain, v: nat, w: nat)
    requires |c.sent| == |c.receipts| + 1 && c.sent[|c.receipts|] == Transfer(v)
    ensures var t := Settle(Sent(c, Transfer(w)));
            && |t.debits| <= |c.debits| + 2
            && (|t.debits| == |c.debits| + 2 <==> v + w <= c.relayTokens)
            && (v + w <= c.relayTokens ==> t.debits == c.debits + [v, w])
  {
    var sent := Sent(c, Transfer(w));
    var first := Mined(sent);
    assert first.sent[|first.receipts|] == Transfer(w);
    assert Settle(sent) == Settle(first) == Mined(first);
    assert c.debits + [v] + [w] == c.debits + [v, w];
  }

  lemma NotifiedAfter(c: Chain, v: nat)
    requires |c.sent| == |c.receipts| + 1 && c.sent[|c.receipts|] == Transfer(v)
    ensures |Settle(Sent(c, NotifyFunded)).debits| <= |c.debits| + 1
  {
    var sent := Sent(c, NotifyFunded);
    var first := Mined(sent);
    assert Settle(sent) == Settle(first) == Mined(first);
  }

  /** A call that dies while its transfer is pending leaves it so. Repeated then, the call sends the
      shortfall a second time, and both are debited exactly when the relay can pay both. */
  lemma PendingTransferIsRepeated(c: Chain, stopAfterTransfer: bool)
    requires Settled(c) && !AlreadyFunded(c.status) && 0 < Shortfall(c)
    ensures var killed := Sent(c, Transfer(Shortfall(c)));
            && SendsTransfer(killed, Forwarded(killed, stopAfterTransfer))
            && (Forwarded(killed, stopAfterTransfer).debits == c.debits + [Shortfall(c), Shortfall(c)]
                <==> 2 * Shortfall(c) <= c.relayTokens)
  {
    var killed := Sent(c, Transfer(Shortfall(c)));
    SendsTransferIff(killed, stopAfterTransfer);
    TwoDebitsIff(killed, Shortfall(c), stopAfterTransfer);
  }

  // ---------- The script ----------

  datatype Evidence = Evidence(step: string, nonce: nat)

  datatype Receipt = Success | Failure | Killed

  datatype Outcome =
    | Interrupted
    | Threw
    | Done(transfer: Option<Evidence>, notify: Option<Evidence>, alreadyFunded: bool)

  function EvidenceOf(o: Option<Evidence>): seq<Evidence> {
    if o.Some? then [o.value] else []
  }

  ghost predicate Confirmed(c: Chain, nonce: nat) {
    nonce < |c.receipts| <= |c.sent| && c.receipts[nonce]
  }

  /**
   A completed call has sent exactly the transactions it reports, the transfer first, has appended
   their evidence, and both succeeded.
   */
  ghost predicate Reported(o: Outcome, before: Chain, transactions: seq<Evidence>, after: Chain, transactions': seq<Evidence>)
    requires o.Done?
  {
    && transactions' == transactions + EvidenceOf(o.transfer) + EvidenceOf(o.notify)
    && |after.sent| == |before.sent| + |EvidenceOf(o.transfer)| + |EvidenceOf(o.notify)|
    && (o.transfer.Some? ==> o.transfer.value.nonce == |before.sent| && Confirmed(after, |before.sent|) && after.sent[|before.sent|].Transfer?)
    && (o.notify.Some? ==>
          var n := |after.sent| - 1;
          o.notify.value.nonce == n && Confirmed(after, n) && after.sent[n].NotifyFunded?)
  }

  /** A transaction was sent and the last one reverted. */
  ghost predicate LastFailed(before: Chain, after: Chain) {
    var n := |after.sent| - 1;
    |before.sent| <= n < |after.receipts| && !after.receipts[n]
  }

  class Relay {
    var chain: Chain
    var transactions: seq<Evidence>

    /** No call so far began while a transaction of the relay was pending. */
    ghost var orderly: bool

    ghost predicate Valid()
      reads this
    {
      Sound(chain) && (orderly ==> Once(chain))
    }

    /** The factory has created the escrow; tokens may already lie at its address. */
    constructor (terms: Terms, opening: nat, relayTokens: nat)
      ensures Valid() && orderly
      ensures chain.terms == terms && chain.opening == opening && !chain.funded && Settled(chain)
    {
      chain := Chain(terms, AwaitingFunding, opening, false, relayTokens, [], [], opening, opening, [], 0, false, false);
      transactions := [];
      orderly := true;
    }

    method Happen(e: Event)
      requires Valid()
      modifies this`chain
      ensures Valid() && chain == Step(old(chain), e)
      ensures Later(old(chain), chain) && WithoutRelay(old(chain), chain)
    {
      StepKeepsSound(chain, e);
      if orderly {
        StepKeepsOnce(chain, e);
      }
      StepIsLater(chain, e);
      chain := Step(chain, e);
    }

    /** Between two lines of the script anything can happen, and in a quiet run nothing does. */
    method Gap(quiet: bool)
      requires Valid()
      modifies this`chain
      ensures Valid() && Later(old(chain), chain) && WithoutRelay(old(chain), chain)
      ensures quiet ==> chain == old(chain)
    {
      if quiet {
        return;
      }
      var events: seq<Event> := *;
      for i := 0 to |events|
        invariant Valid() && Later(old(chain), chain) && WithoutRelay(old(chain), chain)
      {
        ghost var before := chain;
        Happen(events[i]);
        LaterTransitive(old(chain), before, chain);
        WithoutRelayTransitive(old(chain), before, chain);
      }
    }

    /** The next transaction is mined. */
    method NextBlock(quiet: bool)
      requires Valid() && !Settled(chain)
      modifies this`chain
      ensures Valid() && Later(old(chain), chain) && chain.sent == old(chain).sent && |old(chain).receipts| < |chain.receipts|
      ensures quiet ==> chain == Mined(old(chain))
    {
      Happen(Mine);
      ghost var mined := chain;
      Gap(quiet);
      LaterTransitive(old(chain), mined, chain);
    }

    /** `waitForSuccess`: waits for the transaction with the given nonce, unless the process dies. */
    method WaitForSuccess(nonce: nat, quiet: bool) returns (receipt: Receipt)
      requires Valid() && nonce < |chain.sent|
      modifies this`chain
      ensures Valid() && Later(old(chain), chain) && chain.sent == old(chain).sent
      ensures !receipt.Killed? ==> nonce < |chain.receipts| && (receipt.Success? <==> chain.receipts[nonce])
      ensures quiet ==> !receipt.Killed?
      ensures quiet && nonce + 1 == |old(chain).sent| ==> chain == Settle(old(chain))
    {
      Gap(quiet);
      while |chain.receipts| <= nonce
        invariant Valid() && Later(old(chain), chain) && chain.sent == old(chain).sent
        invariant quiet ==> Settle(chain) == Settle(old(chain))
        decreases nonce - |chain.receipts|
      {
        var dies: bool := *;
        if dies && !quiet {
          return Killed;
        }
        ghost var before := chain;
        NextBlock(quiet);
        LaterTransitive(old(chain), before, chain);
      }
      receipt := if chain.receipts[nonce] then Success else Failure;
    }

    /** The relay signs and sends a transaction, and waits for it. */
    method Submit(tx: Tx, quiet: bool) returns (receipt: Receipt, nonce: nat)
      requires Valid() && (orderly ==> Once(Sent(chain, tx)))
      modifies this`chain
      ensures Valid() && Later(old(chain), chain)
      ensures nonce == |old(chain).sent| && chain.sent == old(chain).sent + [tx]
      ensures !receipt.Killed? ==> nonce < |chain.receipts| && (receipt.Success? <==> chain.receipts[nonce])
      ensures quiet ==> !receipt.Killed?
      ensures quiet ==> chain == Settle(Sent(old(chain), tx))
    {
      nonce := |chain.sent|;
      chain := Sent(chain, tx);
      ghost var sent := chain;
      receipt := WaitForSuccess(nonce, quiet);
      LaterTransitive(old(chain), sent, chain);
    }

    /** `token.transfer` of the shortfall that has been read. */
    method SendShortfall(value: nat, quiet: bool) returns (receipt: Receipt, nonce: nat)
      requires Valid() && chain.balance + value == Required(chain) && value > 0
      requires orderly ==> Settled(chain) && !chain.funded
      modifies this`chain
      ensures Valid() && Later(old(chain), chain)
      ensures nonce == |old(chain).sent| && chain.sent == old(chain).sent + [Transfer(value)]
      ensures receipt.Success? ==> Confirmed(chain, nonce)
      ensures quiet ==> !receipt.Killed?
      ensures receipt.Failure? ==> |chain.receipts| > nonce && !chain.receipts[nonce]
      ensures quiet ==> chain == Transferred(old(chain))
    {
      ghost var read := chain;
      Gap(quiet);
      if orderly {
        SendKeepsOnce(read, chain);
      }
      ghost var ready := chain;
      receipt, nonce := Submit(Transfer(value), quiet);
      LaterTransitive(read, ready, chain);
    }

    /** The transfer of the call, if the balance it has read is too small. */
    method TransferShortfall(balance: nat, authoritativeRequired: nat, quiet: bool) returns (receipt: Receipt, transfer: Option<Evidence>)
      requires Valid() && balance == chain.balance && authoritativeRequired == Required(chain)
      requires orderly ==> Settled(chain) && !chain.funded
      modifies this`chain, this`transactions
      ensures Valid() && Later(old(chain), chain)
      ensures transfer.Some? <==> balance < authoritativeRequired && receipt.Success?
      ensures transactions == old(transactions) + EvidenceOf(transfer)
      ensures balance >= authoritativeRequired ==> receipt.Success? && chain == old(chain)
      ensures balance < authoritativeRequired ==> chain.sent == old(chain).sent + [Transfer(authoritativeRequired - balance)]
      ensures transfer.Some? ==> transfer.value.nonce == |old(chain).sent| && Confirmed(chain, |old(chain).sent|)
      ensures quiet ==> !receipt.Killed?
      ensures receipt.Failure? ==> LastFailed(old(chain), chain)
      ensures quiet ==> chain == Transferred(old(chain))
    {
      if balance >= authoritativeRequired {
        return Success, None;
      }
      var nonce;
      receipt, nonce := SendShortfall(authoritativeRequired - balance, quiet);
      transfer := None;
      if receipt.Success? {
        transfer := Some(Evidence("transfer", nonce));
        transactions := transactions + [transfer.value];
      }
    }

    /** The `notifyFunded` of the call. */
    method Notify(quiet: bool) returns (receipt: Receipt, notify: Option<Evidence>)
      requires Valid() && (orderly ==> Settled(chain))
      modifies this`chain, this`transactions
      ensures Valid() && Later(old(chain), chain)
      ensures notify.Some? <==> receipt.Success?
      ensures transactions == old(transactions) + EvidenceOf(notify)
      ensures chain.sent == old(chain).sent + [NotifyFunded]
      ensures notify.Some? ==>
                chain.funded && notify.value.nonce == |old(chain).sent| && Confirmed(chain, |old(chain).sent|)
      ensures quiet ==> !receipt.Killed?
      ensures receipt.Failure? ==> LastFailed(old(chain), chain)
      ensures quiet ==> chain == Settle(Sent(old(chain), NotifyFunded))
    {
      notify := None;
      ghost var before := chain;
      Gap(quiet);
      ghost var ready := chain;
      var nonce;
      receipt, nonce := Submit(NotifyFunded, quiet);
      LaterTransitive(before, ready, chain);
      if receipt.Success? {
        assert chain.sent[nonce].NotifyFunded?;
        notify := Some(Evidence("notifyFunded", nonce));
        transactions := transactions + [notify.value];
      }
    }

    /** The rest of the call, once the status has let it through and the balance has been read. */
    method PayAndNotify(balance: nat, authoritativeRequired: nat, stopAfterTransfer: bool, quiet: bool) returns (o: Outcome)
      requires Valid() && balance == chain.balance && authoritativeRequired == Required(chain)
      requires orderly ==> Settled(chain) && !chain.funded
      modifies this`chain, this`transactions
      ensures Valid() && Later(old(chain), chain)
      ensures o.Done? ==> !o.alreadyFunded && Reported(o, old(chain), old(transactions), chain, transactions)
      ensures o.Done? ==> (o.transfer.Some? <==> balance < authoritativeRequired) && (o.notify.Some? <==> !stopAfterTransfer)
      ensures o.Done? && !stopAfterTransfer ==> chain.funded
      ensures o.Threw? ==> LastFailed(old(chain), chain)
      ensures quiet ==> chain == PaidAndNotified(old(chain), stopAfterTransfer) && !o.Interrupted?
    {
      ghost var start, recorded := chain, transactions;
      var receipt, transfer := TransferShortfall(balance, authoritativeRequired, quiet);
      if !receipt.Success? {
        return if receipt.Killed? then Interrupted else Threw;
      }
      if stopAfterTransfer {
        return Done(transfer, None, false);
      }
      o := NotifyPaid(transfer, start, recorded, quiet);
    }

    /** The call's last step; it ends with this `notifyFunded`, unless that failed or the process died. */
    method NotifyPaid(transfer: Option<Evidence>, ghost start: Chain, ghost recorded: seq<Evidence>, quiet: bool) returns (o: Outcome)
      requires Valid() && (orderly ==> Settled(chain))
      requires Later(start, chain) && Reported(Done(transfer, None, false), start, recorded, chain, transactions)
      modifies this`chain, this`transactions
      ensures Valid() && Later(start, chain)
      ensures o.Done? ==> Reported(o, start, recorded, chain, transactions)
      ensures o.Done? ==> o.transfer == transfer && o.notify.Some? && !o.alreadyFunded && chain.funded
      ensures o.Threw? ==> LastFailed(start, chain)
      ensures quiet ==> chain == Settle(Sent(old(chain), NotifyFunded)) && !o.Interrupted?
    {
      ghost var paid := chain;
      var receipt, notify := Notify(quiet);
      LaterTransitive(start, paid, chain);
      match receipt
      case Killed => o := Interrupted;
      case Failure => o := Threw;
      case Success => o := Done(transfer, notify, false);
    }

    /**
     `recoveryAwareForward`. In `quiet` nothing else happens during the call; otherwise anything can,
     between any two of its lines, and it can die there.
     */
    method RecoveryAwareForward(stopAfterTransfer: bool, quiet: bool) returns (o: Outcome)
      requires Valid()
      modifies this
      ensures Valid() && orderly == (old(orderly) && Settled(old(chain)))
      ensures Later(old(chain), chain)
      ensures Settled(old(chain)) && old(chain).funded ==>
                o == Done(None, None, true) && chain.debits == old(chain).debits && chain.sent == old(chain).sent
      ensures o.Done? && o.alreadyFunded ==> o.transfer.None? && o.notify.None? && (chain.funded || chain.status.Cancelled?)
      ensures o.Done? && !o.alreadyFunded && !stopAfterTransfer ==> o.notify.Some? && chain.funded
      ensures o.Done? ==> Reported(o, old(chain), old(transactions), chain, transactions)
      ensures o.Threw? ==> LastFailed(old(chain), chain)
      ensures quiet ==> chain == Forwarded(old(chain), stopAfterTransfer) && !o.Interrupted?
      // What a funded escrow has received, and what it still holds until it pays.
      ensures chain.funded ==> chain.terms.amount + chain.terms.buyerFee <= chain.deposited + Sum(chain.debits)
      ensures chain.status.Funded? ==> chain.terms.amount + chain.terms.buyerFee <= chain.balance
    {
      orderly := orderly && Settled(chain);
      Gap(quiet);
      var status := chain.status;
      if 2 <= Code(status) <= 7 {
        return Done(None, None, true);
      }
      ghost var started := chain;
      Gap(quiet);
      LaterTransitive(old(chain), started, chain);
      WithoutRelayTransitive(old(chain), started, chain);
      ghost var read := chain;
      o := PayAndNotify(chain.balance, chain.terms.amount + chain.terms.buyerFee, stopAfterTransfer, quiet);
      LaterTransitive(old(chain), read, chain);
    }

    /**
     Any number of calls, with anything in between. `patient` operators start a call only when no
     transaction is pending. Then, unless the escrow was emptied unfunded, the relay is debited at
     most once, by the shortfall; and after a call that ran to its end the escrow has been funded or
     was cancelled.
     */
    method Operate(stops: seq<bool>, patient: bool) returns (completed: bool)
      requires Valid()
      modifies this
      ensures Valid() && Later(old(chain), chain)
      ensures old(orderly) && patient ==> orderly
      ensures old(orderly) && patient && !chain.drained ==>
                && |chain.debits| <= 1
                && forall d | d in chain.debits ::
                     && d + chain.opening <= chain.terms.amount + chain.terms.buyerFee
                     && (chain.deposited == chain.opening ==> d + chain.opening == chain.terms.amount + chain.terms.buyerFee)
      ensures completed ==> chain.funded || chain.status.Cancelled?
      ensures Settled(old(chain)) && old(chain).funded ==> chain.debits == old(chain).debits && chain.sent == old(chain).sent
    {
      completed := false;
      ghost var start, wasOrderly := chain, orderly;
      for i := 0 to |stops|
        invariant Valid() && Later(start, chain)
        invariant wasOrderly && patient ==> orderly
        invariant completed ==> chain.funded || chain.status.Cancelled?
        invariant Settled(start) && start.funded ==> Settled(chain) && chain.debits == start.debits && chain.sent == start.sent
      {
        ghost var before := chain;
        Quiesce(patient);
        LaterTransitive(start, before, chain);
        ghost var called := chain;
        var o := RecoveryAwareForward(stops[i], false);
        LaterTransitive(start, called, chain);
        completed := completed || (o.Done? && !stops[i]) || (o.Done? && o.alreadyFunded);
      }
    }

    /** Time passes, for a patient operator until nothing is pending. */
    method Quiesce(patient: bool)
      requires Valid()
      modifies this`chain
      ensures Valid() && Later(old(chain), chain) && WithoutRelay(old(chain), chain)
      ensures patient ==> Settled(chain)
    {
      Gap(false);
      while patient && !Settled(chain)
        invariant Valid() && Later(old(chain), chain) && WithoutRelay(old(chain), chain)
        decreases |chain.sent| - |chain.receipts|
      {
        ghost var before := chain;
        NextBlock(false);
        LaterTransitive(old(chain), before, chain);
      }
    }
  }
}
