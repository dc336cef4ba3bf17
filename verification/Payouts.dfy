// One payout attempt: the classification of the observed surplus on wrapping 128-bit subtraction,
// and the transaction that is built, signed and sent.
module Payouts {
  import opened Definitions
  import opened Chains
  import opened Watching
  import opened Protocol
  import opened Signing
  import Routing
  import Safety

  const WIDTH: int := 0x1_0000_0000_0000_0000_0000_0000_0000_0000
  const LOSS_TOLERANCE: u128 := 10000
  const MANUAL_INTERVENTION: u128 := 1000000000000

  /** u128 subtraction in a build without overflow checks. */
  function WrappingSub(a: u128, b: u128): u128 {
    (a - b) % WIDTH
  }

  datatype Verdict = Pay | Overpaid | OutOfRange

  /** The match on the surplus; the first range that contains it counts. */
  function Classify(balance: u128, amount: u128): Verdict {
    var a := WrappingSub(balance, amount);
    if 0 <= a <= LOSS_TOLERANCE then Pay
    else if LOSS_TOLERANCE <= a <= MANUAL_INTERVENTION then Overpaid
    else OutOfRange
  }

  /** No balance below this amount can wrap into a range of this width. */
  predicate NoWrap(amount: u128, range: u128) {
    amount + range < WIDTH
  }

  lemma Wraps(balance: u128, amount: u128)
    ensures WrappingSub(balance, amount) == if amount <= balance then balance - amount else balance - amount + WIDTH
  {
  }

  /** Exactly when a transfer is built: over all balances and amounts, wrapped ones included. */
  lemma PayIff(balance: u128, amount: u128)
    ensures Classify(balance, amount) == Pay
       <==> amount <= balance <= amount + LOSS_TOLERANCE || balance + WIDTH <= amount + LOSS_TOLERANCE
  {
    Wraps(balance, amount);
  }

  lemma OverpaidIff(balance: u128, amount: u128)
    ensures Classify(balance, amount) == Overpaid
       <==> amount + LOSS_TOLERANCE < balance <= amount + MANUAL_INTERVENTION
            || amount + LOSS_TOLERANCE < balance + WIDTH <= amount + MANUAL_INTERVENTION
  {
    Wraps(balance, amount);
  }

  /**
   * The guard a caller can check: only for an amount up to 2^128 - 10001 is it impossible that an
   * account holding less than the amount is taken for a payable one.
   */
  lemma UnderpaidNeverPaysIff(amount: u128)
    ensures (forall balance: u128 :: Classify(balance, amount) == Pay ==> amount <= balance)
       <==> NoWrap(amount, LOSS_TOLERANCE)
  {
    if NoWrap(amount, LOSS_TOLERANCE) {
      forall balance: u128 | Classify(balance, amount) == Pay ensures amount <= balance {
        PayIff(balance, amount);
      }
    } else {
      PayIff(0, amount);
      assert Classify(0, amount) == Pay;
    }
  }

  /** An amount past the range of the integer saturates to the largest one, and an empty account is then payable. */
  lemma EmptyAccountIsPayable()
    ensures Classify(0, WIDTH - 1) == Pay && Classify(9999, WIDTH - 1) == Pay
  {
    PayIff(0, WIDTH - 1);
    PayIff(9999, WIDTH - 1);
  }

  /** Within the guard, the three verdicts are the three ranges of the surplus, and an underpaid account sends nothing. */
  lemma ClassifiedAsMeant(balance: u128, amount: u128)
    requires NoWrap(amount, MANUAL_INTERVENTION)
    ensures match Classify(balance, amount)
            case Pay => amount <= balance <= amount + 10000
            case Overpaid => amount + 10000 < balance <= amount + 1000000000000
            case OutOfRange => balance < amount || amount + 1000000000000 < balance
  {
    PayIff(balance, amount);
    OverpaidIff(balance, amount);
  }

  // --- The attempt ---

  /** A clearing native transfer moves all there is, whatever the amount; an asset transfer the amount. */
  datatype Call = TransferAll(to: Account) | TransferAsset(asset: u32, amount: u128, to: Account)

  datatype Unsigned = Unsigned(author: Account, calls: seq<Call>, block: u32, nonce: u32)

  datatype Transaction = Transaction(content: Unsigned, signature: Option<Signature>)

  datatype PayoutError =
    | Rpc
    | InvalidCurrency(currency: Text)
    | AssetId
    | Construction
    | TransactionNotSignable
    | SignerDown
    | NothingToSend

  /** Everything the attempt learns from outside; None and false are failures. */
  datatype Node = Node(
    connected: bool,
    block: Option<u32>,
    balance: Option<u128>,
    hasCall: Call -> bool,
    payload: Unsigned -> Option<bytes>,
    encodes: bool,
    accepts: bool)

  function AssetCall(p: CurrencyProperties, order: Invoice): Option<Call> {
    match p.kind
    case Native => Some(TransferAll(order.recipient))
    case Asset => if p.assetId.Some? then Some(TransferAsset(p.assetId.value, order.amount, order.recipient)) else None
  }

  /** The only transaction this order may lead to on this block. */
  function Expected(p: CurrencyProperties, order: Invoice, block: u32): Unsigned
    requires AssetCall(p, order).Some?
  {
    Unsigned(order.address, [AssetCall(p, order).value], block, 0)
  }

  /** All that must hold, beside a serving signer, for a transaction to leave the daemon. */
  predicate Sends(node: Node, order: Invoice, assets: Assets) {
    && node.connected && node.block.Some? && node.balance.Some?
    && order.currency in assets
    && Classify(node.balance.value, order.amount) == Pay
    && (var p := assets[order.currency];
        && (p.kind.Asset? ==> p.assetId.Some?)
        && node.hasCall(AssetCall(p, order).value)
        && node.payload(Expected(p, order, node.block.value)).Some?)
    && node.encodes
  }

  /** What these calls take together from an account with this balance, fees aside. */
  function TakenByAll(calls: seq<Call>, balance: u128): nat {
    if |calls| == 0 then 0 else TakenByAll(calls[..|calls| - 1], balance) + Taken(calls[|calls| - 1], balance)
  }

  /** What a call takes. */
  function Taken(call: Call, balance: u128): u128 {
    match call
    case TransferAll(_) => balance
    case TransferAsset(_, amount, _) => amount
  }

  /** A transfer to this recipient of what the properties say the currency is: all of the native token, or so much of this asset. */
  predicate Transfers(call: Call, p: CurrencyProperties, order: Invoice) {
    call.to == order.recipient
    && match p.kind
       case Native => call.TransferAll?
       case Asset => call.TransferAsset? && p.assetId == Some(call.asset) && call.amount == order.amount
  }

  /**
   * One attempt: effects in order, early returns, and a transaction whose signature is filled in last.
   * What is sent is by the order's account, at the node's block, with the first nonce, and a single transfer.
   */
  method Payout(node: Node, order: Invoice, assets: Assets, signer: Signer)
    returns (sent: Option<Transaction>, result: Result<(), PayoutError>)
    ensures sent.Some? <==> Sends(node, order, assets) && signer.serving
    ensures sent.Some? ==>
      && sent.value.content == Expected(assets[order.currency], order, node.block.value)
      && sent.value.signature == Some(Signature(signer.Account(order.id), node.payload(sent.value.content).value))
    ensures sent.Some? ==>
      var t := sent.value.content;
      t.author == order.address && node.block == Some(t.block) && t.nonce == 0
      && |t.calls| == 1 && Transfers(t.calls[0], assets[order.currency], order)
    ensures sent.Some? ==> result == (if node.accepts then Ok(()) else Err(Rpc))
    ensures sent.None? ==>
              result == (if !node.connected then Ok(())
                         else if node.block.None? then Err(Rpc)
                         else if order.currency !in assets then Err(InvalidCurrency(order.currency))
                         else if node.balance.None? then Err(Rpc)
                         else if Classify(node.balance.value, order.amount) != Pay then Ok(())
                         else if AssetCall(assets[order.currency], order).None? then Err(AssetId)
                         else if !node.hasCall(AssetCall(assets[order.currency], order).value) then Err(Construction)
                         else if node.payload(Expected(assets[order.currency], order, node.block.value)).None?
                         then Err(TransactionNotSignable)
                         else if !signer.serving then Err(SignerDown)
                         else Err(NothingToSend))
  {
    sent := None;
    if !node.connected {
      return None, Ok(());
    }
    if node.block.None? {
      return None, Err(Rpc);
    }
    if order.currency !in assets {
      return None, Err(InvalidCurrency(order.currency));
    }
    if node.balance.None? {
      return None, Err(Rpc);
    }
    var currency := assets[order.currency];
    var call;
    match Classify(node.balance.value, order.amount) {
      case Pay =>
        match currency.kind {
          case Native =>
            call := TransferAll(order.recipient);
          case Asset =>
            if currency.assetId.None? {
              return None, Err(AssetId);
            }
            call := TransferAsset(currency.assetId.value, order.amount, order.recipient);
        }
      case Overpaid =>
        return None, Ok(());
      case OutOfRange =>
        return None, Ok(());
    }
    if !node.hasCall(call) {
      return None, Err(Construction);
    }
    var batch := Transaction(Unsigned(order.address, [call], node.block.value, 0), None);
    var signThis := node.payload(batch.content);
    if signThis.None? {
      return None, Err(TransactionNotSignable);
    }
    var signature := signer.SignFor(order.id, signThis.value);
    if signature.None? {
      return None, Err(SignerDown);
    }
    batch := batch.(signature := signature);
    if !node.encodes {
      return None, Err(NothingToSend);
    }
    sent := Some(batch);
    result := if node.accepts then Ok(()) else Err(Rpc);
  }

  lemma OneCall(p: CurrencyProperties, order: Invoice, block: u32, balance: u128)
    requires AssetCall(p, order).Some?
    ensures var t := Expected(p, order, block);
            && |t.calls| == 1 && Transfers(t.calls[0], p, order) && t.author == order.address && t.block == block && t.nonce == 0
            && TakenByAll(t.calls, balance) == if p.kind.Native? then balance else order.amount
  {
    var calls := Expected(p, order, block).calls;
    assert calls[..0] == [];
  }

  /**
   * Nothing is sent that the observed balance does not cover: all calls of the transaction together
   * take no more, they pay the recipient, and him at least the amount and at most 10000 units more,
   * unless the amount lies within 10000 of 2^128.
   */
  lemma SentIsCovered(node: Node, order: Invoice, assets: Assets)
    requires Sends(node, order, assets) && NoWrap(order.amount, LOSS_TOLERANCE)
    ensures var t := Expected(assets[order.currency], order, node.block.value);
            var balance := node.balance.value;
            && (forall call :: call in t.calls ==> call.to == order.recipient)
            && TakenByAll(t.calls, balance) <= balance
            && order.amount <= TakenByAll(t.calls, balance) <= order.amount + 10000
            && balance - TakenByAll(t.calls, balance) <= 10000
  {
    PayIff(node.balance.value, order.amount);
    OneCall(assets[order.currency], order, node.block.value, node.balance.value);
  }

  /** The properties an endpoint reports always give an asset its id. */
  ghost predicate IdsPresent(assets: Assets) {
    forall n :: n in assets && assets[n].kind.Asset? ==> assets[n].assetId.Some?
  }

  lemma {:induction false} ListedIdsPresent(r: NodeReport, listing: seq<AssetRecord>)
    ensures IdsPresent(AssetsOf(r, listing))
  {
    if |listing| > 0 {
      ListedIdsPresent(r, listing[..|listing| - 1]);
    }
  }

  /** So a payout over what a connection reported never fails for a missing asset id. */
  lemma PreparedIdsPresent(c: Chain, r: NodeReport)
    requires Prepare(c, r).Ok?
    ensures IdsPresent(Prepare(c, r).value)
  {
    ListedIdsPresent(r, r.listing);
  }

  /**
   * In every reachable state, the attempt of a payout task finds its currency, and what it sends is
   * authored by the account of the key that signs it and asks for what the paid record asks for.
   */
  lemma TaskPaysItsRecord(c: Config, s: World, k: nat, node: Node)
    requires c.Valid() && Routing.NamedApart(c) && Reachable(c, s) && k < |s.tasks|
    ensures var w := s.tasks[k].w;
            var assets := s.tasks[k].assets;
            && w.currency in assets
            && (Sends(node, FromRequest(w), assets) ==>
                  var content := Expected(assets[w.currency], FromRequest(w), node.block.value);
                  && content.author == c.account(c.recipient, w.id)
                  && w.id in s.d.db && s.d.db[w.id].paymentStatus.Paid?
                  && (w.currency, w.amount) == Terms(c, s.d.db[w.id])
                  && (forall call :: call in content.calls ==> call.to == c.recipient)
                  && TakenByAll(content.calls, node.balance.value)
                     == if assets[w.currency].kind.Native? then node.balance.value else Terms(c, s.d.db[w.id]).1)
  {
    Routing.PayoutKnowsItsCurrency(c, s, k);
    Safety.RequestIntegrity(c, s, s.tasks[k].w);
    var w := s.tasks[k].w;
    if Sends(node, FromRequest(w), s.tasks[k].assets) {
      OneCall(s.tasks[k].assets[w.currency], FromRequest(w), node.block.value, node.balance.value);
    }
    hide Reachable, Safety.Inv;
  }
}
