// The plain values of the daemon: machine integers, text, orders and currencies.
// Follows src/definitions.rs; integer widths are those of the Rust types.
module Definitions {

  type u8 = x: int | 0 <= x < 0x100
  type u16 = x: int | 0 <= x < 0x1_0000
  type u32 = x: int | 0 <= x < 0x1_0000_0000
  type u64 = x: int | 0 <= x < 0x1_0000_0000_0000_0000
  type u128 = x: int | 0 <= x < 0x1_0000_0000_0000_0000_0000_0000_0000_0000

  /** The bit pattern of a 64-bit float; it is stored and compared, never computed with, outside Amounts. */
  type F64 = u64

  type bytes = seq<u8>

  /** A length that fits the 32-bit prefix every encoded collection carries. */
  type Vec<T> = s: seq<T> | |s| < 0x1_0000_0000 witness []

  /** A Rust String: well-formed UTF-8. */
  type Text = s: bytes | |s| < 0x1_0000_0000 && ValidUtf8(s) witness []

  type Id = Text
  /** AccountId32. */
  type Account = s: bytes | |s| == 32 witness seq(32, _ => 0)

  datatype Option<+T> = None | Some(value: T)

  datatype Result<+T, +E> = Ok(value: T) | Err(error: E)

  // --- UTF-8 well-formedness (Unicode Standard, table 3-7) ---

  predicate Continuation(b: u8) {
    0x80 <= b <= 0xBF
  }

  /** The number of bytes of the first character, 0 when it is malformed. */
  function FirstCharWidth(s: bytes): (n: nat)
    requires |s| > 0
    ensures n <= |s|
  {
    var b := s[0];
    if b < 0x80 then 1
    else if 0xC2 <= b <= 0xDF && |s| >= 2 && Continuation(s[1]) then 2
    else if |s| >= 3 && Continuation(s[2])
            && ((b == 0xE0 && 0xA0 <= s[1] <= 0xBF)
                || (b == 0xED && 0x80 <= s[1] <= 0x9F)
                || (0xE1 <= b <= 0xEF && b != 0xED && Continuation(s[1]))) then 3
    else if |s| >= 4 && Continuation(s[2]) && Continuation(s[3])
            && ((b == 0xF0 && 0x90 <= s[1] <= 0xBF)
                || (0xF1 <= b <= 0xF3 && Continuation(s[1]))
                || (b == 0xF4 && 0x80 <= s[1] <= 0x8F)) then 4
    else 0
  }

  predicate ValidUtf8(s: bytes) {
    |s| == 0 || (var n := FirstCharWidth(s); n > 0 && ValidUtf8(s[n..]))
  }

  predicate AllAscii(s: bytes) {
    forall i :: 0 <= i < |s| ==> s[i] < 0x80
  }

  lemma AsciiIsText(s: bytes)
    requires AllAscii(s)
    ensures ValidUtf8(s)
  {
    if |s| > 0 {
      assert FirstCharWidth(s) == 1;
      AsciiIsText(s[1..]);
    }
  }

  // --- Orders ---

  datatype PaymentStatus = Pending | Paid

  datatype WithdrawalStatus = Waiting | Failed | Completed

  datatype TokenKind = Asset | Native

  datatype CurrencyInfo = CurrencyInfo(
    currency: Text,
    chainName: Text,
    kind: TokenKind,
    decimals: u8,
    rpcUrl: Text,
    assetId: Option<u32>,
    ss58: u16)

  datatype CurrencyProperties = CurrencyProperties(
    chainName: Text,
    kind: TokenKind,
    decimals: u8,
    rpcUrl: Text,
    assetId: Option<u32>,
    ss58: u16)
  {
    function Info(currency: Text): CurrencyInfo {
      CurrencyInfo(currency, chainName, kind, decimals, rpcUrl, assetId, ss58)
    }
  }

  datatype FinalizedTx = FinalizedTx(blockNumber: u64, positionInBlock: u32, timestamp: Text)

  datatype Amount = All | Exact(value: F64)

  datatype TxStatus = TxPending | TxFinalized | TxFailed

  datatype TransactionInfo = TransactionInfo(
    finalizedTx: Option<FinalizedTx>,
    transactionBytes: Text,
    sender: Text,
    recipient: Text,
    amount: Amount,
    currency: CurrencyInfo,
    status: TxStatus)

  datatype OrderInfo = OrderInfo(
    withdrawalStatus: WithdrawalStatus,
    paymentStatus: PaymentStatus,
    amount: F64,
    currency: CurrencyInfo,
    callback: Text,
    transactions: Vec<TransactionInfo>,
    paymentAccount: Text,
    death: u64)

  datatype OrderQuery = OrderQuery(order: Id, amount: F64, callback: Text, currency: Text)
}
