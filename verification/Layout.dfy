// The bytes of a row of the order table, written out: which byte stands for what, and in which order.
module Layout {
  import opened Definitions
  import opened Scale
  import opened OrderCodec

  // --- Numbers ---

  /** Least significant byte first. */
  lemma LittleEndian(v16: u16, v32: u32, v64: u64)
    ensures Le(v16, 2) == [v16 % 0x100, v16 / 0x100]
    ensures Le(v32, 4) == [v32 % 0x100, v32 / 0x100 % 0x100, v32 / 0x1_0000 % 0x100, v32 / 0x100_0000]
    ensures Le(v64, 8) == [v64 % 0x100, v64 / 0x100 % 0x100, v64 / 0x1_0000 % 0x100, v64 / 0x100_0000 % 0x100]
                          + [v64 / 0x1_0000_0000 % 0x100, v64 / 0x100_0000_0000 % 0x100,
                             v64 / 0x1_0000_0000_0000 % 0x100, v64 / 0x100_0000_0000_0000]
  {
    TwoBytes(v16);
    FourBytes(v32);
    EightBytes(v64);
  }

  lemma NextByte(v: nat, w: nat)
    requires w > 0
    ensures Le(v, w) == [v % 0x100] + Le(v / 0x100, w - 1)
  {
  }

  lemma OneByte(v: u8)
    ensures Le(v, 1) == [v]
  {
    NextByte(v, 1);
    assert Le(v / 0x100, 0) == [];
  }

  lemma TwoBytes(v: u16)
    ensures Le(v, 2) == [v % 0x100, v / 0x100]
  {
    NextByte(v, 2);
    OneByte(v / 0x100);
    hide Le;
  }

  lemma FourBytes(v: u32)
    ensures Le(v, 4) == [v % 0x100, v / 0x100 % 0x100, v / 0x1_0000 % 0x100, v / 0x100_0000]
  {
    NextByte(v, 4);
    NextByte(v / 0x100, 3);
    var high: u16 := v / 0x1_0000;
    assert v / 0x100 / 0x100 == high && high / 0x100 == v / 0x100_0000;
    TwoBytes(high);
    hide Le;
  }

  lemma HighHalf(v: u64)
    ensures v / 0x100 / 0x100 / 0x100 / 0x100 == v / 0x1_0000_0000
    ensures v / 0x100 / 0x100 == v / 0x1_0000 && v / 0x100 / 0x100 / 0x100 == v / 0x100_0000
  {
  }

  lemma HighBytes(v: u64, high: u32)
    requires high == v / 0x1_0000_0000
    ensures high / 0x100 == v / 0x100_0000_0000 && high / 0x1_0000 == v / 0x1_0000_0000_0000
    ensures high / 0x100_0000 == v / 0x100_0000_0000_0000
  {
  }

  lemma EightBytes(v: u64)
    ensures Le(v, 8) == [v % 0x100, v / 0x100 % 0x100, v / 0x1_0000 % 0x100, v / 0x100_0000 % 0x100]
                        + [v / 0x1_0000_0000 % 0x100, v / 0x100_0000_0000 % 0x100,
                           v / 0x1_0000_0000_0000 % 0x100, v / 0x100_0000_0000_0000]
  {
    var high: u32 := v / 0x1_0000_0000;
    HighHalf(v);
    HighBytes(v, high);
    NextByte(v, 8);
    NextByte(v / 0x100, 7);
    NextByte(v / 0x1_0000, 6);
    NextByte(v / 0x100_0000, 5);
    FourBytes(high);
    hide Le;
  }

  lemma Shifted(n: nat, mode: nat)
    requires mode < 4
    ensures (4 * n + mode) % 0x100 == 4 * (n % 0x40) + mode && (4 * n + mode) / 0x100 == n / 0x40
  {
    assert n == 0x40 * (n / 0x40) + n % 0x40;
  }

  lemma Divided(n: nat, m: nat)
    requires m / 0x100 == n / 0x40
    ensures m / 0x1_0000 == n / 0x4000 && m / 0x100_0000 == n / 0x40_0000
  {
    assert m / 0x1_0000 == m / 0x100 / 0x100 && n / 0x4000 == n / 0x40 / 0x100;
    assert m / 0x100_0000 == m / 0x100 / 0x1_0000 && n / 0x40_0000 == n / 0x40 / 0x1_0000;
  }

  lemma CompactInTwo(n: u32)
    requires 0x40 <= n < 0x4000
    ensures EncCompact(n) == [4 * (n % 0x40) + 1, n / 0x40]
  {
    Shifted(n, 1);
    TwoBytes(4 * n + 1);
    hide Le;
  }

  lemma CompactInFour(n: u32)
    requires 0x4000 <= n < 0x4000_0000
    ensures EncCompact(n) == [4 * (n % 0x40) + 2, n / 0x40 % 0x100, n / 0x4000 % 0x100, n / 0x40_0000]
  {
    var m := 4 * n + 2;
    Shifted(n, 2);
    Divided(n, m);
    FourBytes(m);
    assert EncCompact(n) == Le(m, 4);
    hide Le, EncCompact;
  }

  /** A length takes one, two, four or five bytes; the two lowest bits of the first say which. */
  lemma CompactIs(n: u32)
    ensures EncCompact(n) ==
            if n < 0x40 then [4 * n]
            else if n < 0x4000 then [4 * (n % 0x40) + 1, n / 0x40]
            else if n < 0x4000_0000 then [4 * (n % 0x40) + 2, n / 0x40 % 0x100, n / 0x4000 % 0x100, n / 0x40_0000]
            else [3, n % 0x100, n / 0x100 % 0x100, n / 0x1_0000 % 0x100, n / 0x100_0000]
  {
    if 0x40 <= n < 0x4000 {
      CompactInTwo(n);
      hide EncCompact;
    } else if 0x4000 <= n < 0x4000_0000 {
      CompactInFour(n);
      hide EncCompact;
    } else {
      FourBytes(n);
      hide Le;
    }
  }

  // --- Text, options and lists ---

  /** A text is its length and then its bytes. */
  function TextBytes(t: Text): bytes {
    EncCompact(|t|) + t
  }

  lemma StrIs(t: Text)
    ensures Str().enc(t) == TextBytes(t)
  {
    KeyIsLonger(t);
  }

  lemma ItemsInOrder<A(!new)>(a: Codec<A>, v: seq<A>, x: A)
    ensures EncItems(a, v + [x]) == EncItems(a, v) + a.enc(x)
    decreases |v|
  {
    if |v| == 0 {
      assert v + [x] == [x] && [x][1..] == [];
      assert EncItems(a, []) == [];
    } else {
      ItemsInOrder(a, v[1..], x);
      assert (v + [x])[1..] == v[1..] + [x];
      Associative(a.enc(v[0]), EncItems(a, v[1..]), a.enc(x));
    }
  }

  // --- Records, field by field ---

  /** Seven fields; the kind is 0 for an asset and 1 for the native token, the asset id is optional. */
  lemma CurrencyIs(i: CurrencyInfo)
    ensures Currency().enc(i) ==
            TextBytes(i.currency) + (TextBytes(i.chainName) + ([if i.kind == Asset then 0 else 1] + ([i.decimals]
            + (TextBytes(i.rpcUrl) + ((if i.assetId.None? then [0] else [1] + Le(i.assetId.value, 4)) + Le(i.ss58, 2))))))
  {
    StrIs(i.currency);
    StrIs(i.chainName);
    StrIs(i.rpcUrl);
    hide Str, TextBytes, ValidUtf8, Le;
  }

  lemma FinalizedIs(f: FinalizedTx)
    ensures Finalized().enc(f) == Le(f.blockNumber, 8) + (Le(f.positionInBlock, 4) + TextBytes(f.timestamp))
  {
    StrIs(f.timestamp);
    hide Str, TextBytes, ValidUtf8, Le;
  }

  /** Seven fields; an amount is 0, or 1 and the bits of the float; the status is 0, 1 or 2. */
  lemma TransactionIs(x: TransactionInfo)
    ensures Transaction().enc(x) ==
            (if x.finalizedTx.None? then [0] else [1] + Finalized().enc(x.finalizedTx.value))
            + (TextBytes(x.transactionBytes) + (TextBytes(x.sender) + (TextBytes(x.recipient)
            + ((if x.amount == All then [0] else [1] + Le(x.amount.value, 8)) + (Currency().enc(x.currency)
            + [if x.status == TxPending then 0 else if x.status == TxFinalized then 1 else 2])))))
  {
    StrIs(x.transactionBytes);
    StrIs(x.sender);
    StrIs(x.recipient);
    hide Str, TextBytes, ValidUtf8, Le, Currency, Finalized;
  }

  /** Eight fields: the two statuses, one byte each, the float, the currency, the callback, the transactions, the address, the deadline. */
  lemma OrderIs(o: OrderInfo)
    ensures Order().enc(o) ==
            [if o.withdrawalStatus == Waiting then 0 else if o.withdrawalStatus == Failed then 1 else 2]
            + ([if o.paymentStatus == Pending then 0 else 1] + (Le(o.amount, 8) + (Currency().enc(o.currency)
            + (TextBytes(o.callback) + ((EncCompact(|o.transactions|) + EncItems(Transaction(), o.transactions))
            + (TextBytes(o.paymentAccount) + Le(o.death, 8)))))))
  {
    StrIs(o.callback);
    StrIs(o.paymentAccount);
    hide Str, TextBytes, ValidUtf8, Le, Currency, Transaction, EncCompact, EncItems;
  }

  /** The order table: the key is the order id as a text, the value the record. */
  lemma RowIs(id: Id, o: OrderInfo)
    ensures TableFormat().EncodeKey(id) == TextBytes(id) && TableFormat().EncodeOrder(o) == Order().enc(o)
  {
    StrIs(id);
    hide Str, TextBytes, Order;
  }
}
