// The byte layout of one row of the order table: the key is the order id, the value the
// OrderInfo record, field by field in declaration order.
module OrderCodec {
  import opened Definitions
  import opened Scale

  function KindIndex(k: TokenKind): u8 {
    match k case Asset => 0 case Native => 1
  }

  function Kind(): Codec<TokenKind> { Enum([Asset, Native], k => KindIndex(k)) }

  function PaymentIndex(p: PaymentStatus): u8 {
    match p case Pending => 0 case Paid => 1
  }

  function Payment(): Codec<PaymentStatus> { Enum([Pending, Paid], p => PaymentIndex(p)) }

  function WithdrawalIndex(w: WithdrawalStatus): u8 {
    match w case Waiting => 0 case Failed => 1 case Completed => 2
  }

  function Withdrawal(): Codec<WithdrawalStatus> { Enum([Waiting, Failed, Completed], w => WithdrawalIndex(w)) }

  function TxStatusIndex(t: TxStatus): u8 {
    match t case TxPending => 0 case TxFinalized => 1 case TxFailed => 2
  }

  function TxStatusC(): Codec<TxStatus> { Enum([TxPending, TxFinalized, TxFailed], t => TxStatusIndex(t)) }

  lemma EnumsFaithful()
    ensures Faithful(Kind()) && Faithful(Payment()) && Faithful(Withdrawal()) && Faithful(TxStatusC())
  {
    EnumFaithful([Asset, Native], (k: TokenKind) => KindIndex(k));
    EnumFaithful([Pending, Paid], (p: PaymentStatus) => PaymentIndex(p));
    EnumFaithful([Waiting, Failed, Completed], (w: WithdrawalStatus) => WithdrawalIndex(w));
    EnumFaithful([TxPending, TxFinalized, TxFailed], (t: TxStatus) => TxStatusIndex(t));
  }

  // --- CurrencyInfo ---

  type CurrencyTuple = (Text, (Text, (TokenKind, (u8, (Text, (Option<u32>, u16))))))

  function ToCurrency(t: CurrencyTuple): CurrencyInfo {
    CurrencyInfo(t.0, t.1.0, t.1.1.0, t.1.1.1.0, t.1.1.1.1.0, t.1.1.1.1.1.0, t.1.1.1.1.1.1)
  }

  function FromCurrency(c: CurrencyInfo): CurrencyTuple {
    (c.currency, (c.chainName, (c.kind, (c.decimals, (c.rpcUrl, (c.assetId, c.ss58))))))
  }

  function CurrencyFields(): Codec<CurrencyTuple> {
    Pair(Str(), Pair(Str(), Pair(Kind(), Pair(U8(), Pair(Str(), Pair(Opt(U32()), U16()))))))
  }

  function Currency(): Codec<CurrencyInfo> {
    Iso(CurrencyFields(), t => ToCurrency(t), c => FromCurrency(c))
  }

  lemma CurrencyFaithful()
    ensures Faithful(Currency())
  {
    StrFaithful(); EnumsFaithful(); U8Faithful(); U16Faithful(); U32Faithful();
    OptFaithful(U32());
    var f6 := Pair(Opt(U32()), U16());
    PairFaithful(Opt(U32()), U16());
    var f5 := Pair(Str(), f6);
    PairFaithful(Str(), f6);
    var f4 := Pair(U8(), f5);
    PairFaithful(U8(), f5);
    var f3 := Pair(Kind(), f4);
    PairFaithful(Kind(), f4);
    var f2 := Pair(Str(), f3);
    PairFaithful(Str(), f3);
    PairFaithful(Str(), f2);
    assert CurrencyFields() == Pair(Str(), f2);
    IsoFaithful(CurrencyFields(), t => ToCurrency(t), c => FromCurrency(c));
  }

  // --- TransactionInfo ---

  function ToFinalized(t: (u64, (u32, Text))): FinalizedTx { FinalizedTx(t.0, t.1.0, t.1.1) }

  function FromFinalized(f: FinalizedTx): (u64, (u32, Text)) { (f.blockNumber, (f.positionInBlock, f.timestamp)) }

  function Finalized(): Codec<FinalizedTx> {
    Iso(Pair(U64(), Pair(U32(), Str())), t => ToFinalized(t), f => FromFinalized(f))
  }

  lemma FinalizedFaithful()
    ensures Faithful(Finalized())
  {
    StrFaithful(); U32Faithful(); U64Faithful();
    PairFaithful(U32(), Str());
    PairFaithful(U64(), Pair(U32(), Str()));
    IsoFaithful(Pair(U64(), Pair(U32(), Str())), t => ToFinalized(t), f => FromFinalized(f));
  }

  /** All is variant 0 and Exact variant 1, the same bytes as an optional float. */
  function ToAmount(o: Option<F64>): Amount {
    match o case None => All case Some(x) => Amount.Exact(x)
  }

  function FromAmount(a: Amount): Option<F64> {
    match a case All => None case Exact(x) => Some(x)
  }

  function AmountC(): Codec<Amount> { Iso(Opt(U64()), o => ToAmount(o), a => FromAmount(a)) }

  lemma AmountFaithful()
    ensures Faithful(AmountC())
  {
    U64Faithful();
    OptFaithful(U64());
    IsoFaithful(Opt(U64()), o => ToAmount(o), a => FromAmount(a));
  }

  type TransactionTuple = (Option<FinalizedTx>, (Text, (Text, (Text, (Amount, (CurrencyInfo, TxStatus))))))

  function ToTransaction(t: TransactionTuple): TransactionInfo {
    TransactionInfo(t.0, t.1.0, t.1.1.0, t.1.1.1.0, t.1.1.1.1.0, t.1.1.1.1.1.0, t.1.1.1.1.1.1)
  }

  function FromTransaction(x: TransactionInfo): TransactionTuple {
    (x.finalizedTx, (x.transactionBytes, (x.sender, (x.recipient, (x.amount, (x.currency, x.status))))))
  }

  function TransactionFields(): Codec<TransactionTuple> {
    Pair(Opt(Finalized()), Pair(Str(), Pair(Str(), Pair(Str(), Pair(AmountC(), Pair(Currency(), TxStatusC()))))))
  }

  function Transaction(): Codec<TransactionInfo> {
    Iso(TransactionFields(), t => ToTransaction(t), x => FromTransaction(x))
  }

  lemma TransactionFaithful()
    ensures Faithful(Transaction())
  {
    StrFaithful(); EnumsFaithful(); CurrencyFaithful(); AmountFaithful(); FinalizedFaithful();
    OptFaithful(Finalized());
    var f6 := Pair(Currency(), TxStatusC());
    PairFaithful(Currency(), TxStatusC());
    var f5 := Pair(AmountC(), f6);
    PairFaithful(AmountC(), f6);
    var f4 := Pair(Str(), f5);
    PairFaithful(Str(), f5);
    var f3 := Pair(Str(), f4);
    PairFaithful(Str(), f4);
    var f2 := Pair(Str(), f3);
    PairFaithful(Str(), f3);
    PairFaithful(Opt(Finalized()), f2);
    assert TransactionFields() == Pair(Opt(Finalized()), f2);
    IsoFaithful(TransactionFields(), t => ToTransaction(t), x => FromTransaction(x));
  }

  // --- OrderInfo ---

  type OrderTuple =
    (WithdrawalStatus, (PaymentStatus, (F64, (CurrencyInfo, (Text, (Vec<TransactionInfo>, (Text, u64)))))))

  function ToOrder(t: OrderTuple): OrderInfo {
    OrderInfo(t.0, t.1.0, t.1.1.0, t.1.1.1.0, t.1.1.1.1.0, t.1.1.1.1.1.0, t.1.1.1.1.1.1.0, t.1.1.1.1.1.1.1)
  }

  function FromOrder(o: OrderInfo): OrderTuple {
    (o.withdrawalStatus, (o.paymentStatus, (o.amount, (o.currency, (o.callback,
    (o.transactions, (o.paymentAccount, o.death)))))))
  }

  function OrderFields(): Codec<OrderTuple> {
    Pair(Withdrawal(), Pair(Payment(), Pair(U64(), Pair(Currency(), Pair(Str(),
    Pair(Sequence(Transaction()), Pair(Str(), U64())))))))
  }

  function Order(): Codec<OrderInfo> {
    Iso(OrderFields(), t => ToOrder(t), o => FromOrder(o))
  }

  /** Decoding an order record accepts exactly the encodings of order records. */
  lemma OrderFaithful()
    ensures Faithful(Order())
  {
    StrFaithful(); EnumsFaithful(); CurrencyFaithful(); TransactionFaithful(); U64Faithful();
    SequenceFaithful(Transaction());
    var f7 := Pair(Str(), U64());
    PairFaithful(Str(), U64());
    var f6 := Pair(Sequence(Transaction()), f7);
    PairFaithful(Sequence(Transaction()), f7);
    var f5 := Pair(Str(), f6);
    PairFaithful(Str(), f6);
    var f4 := Pair(Currency(), f5);
    PairFaithful(Currency(), f5);
    var f3 := Pair(U64(), f4);
    PairFaithful(U64(), f4);
    var f2 := Pair(Payment(), f3);
    PairFaithful(Payment(), f3);
    PairFaithful(Withdrawal(), f2);
    assert OrderFields() == Pair(Withdrawal(), f2);
    IsoFaithful(OrderFields(), t => ToOrder(t), o => FromOrder(o));
  }

  // --- Rows of the table ---

  /** How keys and records become bytes. The store needs nothing of it but that it is Faithful. */
  datatype Format = Format(keys: Codec<Id>, rows: Codec<OrderInfo>) {

    ghost predicate Valid() {
      Faithful(keys) && Faithful(rows)
    }

    function EncodeKey(id: Id): bytes { keys.enc(id) }

    function EncodeOrder(o: OrderInfo): bytes { rows.enc(o) }

    /** Decoding looks at the front of the bytes only, as Decode::decode does. */
    function DecodeKey(b: bytes): Option<Id> {
      match keys.dec(b) case None => None case Some((id, _)) => Some(id)
    }

    function DecodeOrder(b: bytes): Option<OrderInfo> {
      match rows.dec(b) case None => None case Some((o, _)) => Some(o)
    }

    lemma RowRoundTrip(id: Id, o: OrderInfo)
      requires Valid()
      ensures DecodeKey(EncodeKey(id)) == Some(id)
      ensures DecodeOrder(EncodeOrder(o)) == Some(o)
    {
      Decodes(keys, id);
      Decodes(rows, o);
    }

    lemma KeysInjective(a: Id, b: Id)
      requires Valid() && EncodeKey(a) == EncodeKey(b)
      ensures a == b
    {
      Injective(keys, a, b);
    }
  }

  /** The format of the order table. */
  function TableFormat(): Format { Format(Str(), Order()) }

  lemma TableFormatValid()
    ensures TableFormat().Valid()
  {
    StrFaithful();
    OrderFaithful();
    hide Str, Order, Faithful;
  }
}
