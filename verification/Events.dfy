// Which events of a block the tracker sees, and which accounts it takes for paid to.
module Events {
  import opened Definitions
  import opened KeyPages

  datatype Value = AccountId(account: Account) | OtherValue

  datatype FieldData = FieldData(name: Option<Text>, value: Value)

  datatype Event = Event(pallet: Text, variant: Text, fields: seq<FieldData>)

  datatype RecordValue = EventValue(event: Event) | OtherRecordValue

  datatype RecordField = RecordField(name: Option<Text>, value: RecordValue)

  datatype Item = Composite(fields: seq<RecordField>) | OtherItem

  /** The decoded value of one storage key. */
  datatype Parsed = Sequence(items: seq<Item>) | OtherData

  datatype FetchError = StorageValueFormat | NotHex | RpcFailure

  /** Why the events of a block are not read to the end; a value that does not decode is a panic. */
  datatype Stop = Refused(error: FetchError) | Panic

  /** Fetching and decoding the value of a key. */
  type Fetch = Key -> Result<Parsed, Stop>

  datatype EventFilter = EventFilter(pallet: Text, variant: Option<Text>)

  const EVENT: Text := (var t: bytes := [101, 118, 101, 110, 116]; assert AllAscii(t); AsciiIsText(t); t)
  const TO: Text := (var t: bytes := [116, 111]; assert AllAscii(t); AsciiIsText(t); t)

  // --- The declarative view ---

  ghost predicate InRecord(fields: seq<RecordField>, e: Event) {
    RecordField(Some(EVENT), EventValue(e)) in fields
  }

  ghost predicate InItems(items: seq<Item>, e: Event) {
    exists fields :: Composite(fields) in items && InRecord(fields, e)
  }

  ghost predicate InValue(fetch: Fetch, key: Key, e: Event) {
    fetch(key).Ok? && fetch(key).value.Sequence? && InItems(fetch(key).value.items, e)
  }

  ghost predicate InPage(fetch: Fetch, keys: seq<Json>, e: Event) {
    exists key :: JsonString(key) in keys && InValue(fetch, key, e)
  }

  /** The event is recorded in the block, wherever in its event storage. */
  ghost predicate InBlock(fetch: Fetch, pages: seq<seq<Json>>, e: Event) {
    exists keys :: keys in pages && InPage(fetch, keys, e)
  }

  ghost predicate PageReadable(fetch: Fetch, keys: seq<Json>) {
    forall key :: JsonString(key) in keys ==> fetch(key).Ok?
  }

  /** Every value of the enumerated keys could be fetched and decoded. */
  ghost predicate Readable(fetch: Fetch, pages: seq<seq<Json>>) {
    forall keys :: keys in pages ==> PageReadable(fetch, keys)
  }

  /** This is how the first value of the page that cannot be read stops the reading. */
  ghost predicate StopsPage(fetch: Fetch, keys: seq<Json>, stop: Stop) {
    exists i :: 0 <= i < |keys| && StopsAt(fetch, keys, i, stop)
  }

  ghost predicate StopsAt(fetch: Fetch, keys: seq<Json>, i: nat, stop: Stop)
    requires i < |keys|
  {
    keys[i].JsonString? && fetch(keys[i].key) == Err(stop) && PageReadable(fetch, keys[..i])
  }

  ghost predicate Stops(fetch: Fetch, pages: seq<seq<Json>>, stop: Stop) {
    exists i :: 0 <= i < |pages| && StopsPage(fetch, pages[i], stop) && Readable(fetch, pages[..i])
  }

  ghost predicate Passes(filter: Option<EventFilter>, e: Event) {
    filter.Some? ==>
      e.pallet == filter.value.pallet && (filter.value.variant.Some? ==> e.variant == filter.value.variant.value)
  }

  // --- The nested loops ---

  method RecordEvents(fields: seq<RecordField>, filter: Option<EventFilter>, before: seq<Event>) returns (out: seq<Event>)
    ensures forall e :: e in out <==> e in before || (InRecord(fields, e) && Passes(filter, e))
  {
    out := before;
    for i := 0 to |fields|
      invariant forall e :: e in out <==> e in before || (InRecord(fields[..i], e) && Passes(filter, e))
    {
      assert fields[..i + 1] == fields[..i] + [fields[i]];
      if fields[i].name == Some(EVENT) {
        match fields[i].value {
          case EventValue(event) =>
            match filter {
              case Some(f) =>
                match f.variant {
                  case Some(variant) =>
                    if event.pallet == f.pallet && event.variant == variant {
                      out := out + [event];
                    }
                  case None =>
                    if event.pallet == f.pallet {
                      out := out + [event];
                    }
                }
              case None =>
                out := out + [event];
            }
          case OtherRecordValue =>
        }
      }
    }
    assert fields[..|fields|] == fields;
  }

  method ItemEvents(items: seq<Item>, filter: Option<EventFilter>, before: seq<Event>) returns (out: seq<Event>)
    ensures forall e :: e in out <==> e in before || (InItems(items, e) && Passes(filter, e))
  {
    out := before;
    for i := 0 to |items|
      invariant forall e :: e in out <==> e in before || (InItems(items[..i], e) && Passes(filter, e))
    {
      assert items[..i + 1] == items[..i] + [items[i]];
      match items[i] {
        case Composite(fields) =>
          out := RecordEvents(fields, filter, out);
          hide InRecord, Passes;
          assert forall e :: InItems(items[..i + 1], e) <==> InItems(items[..i], e) || InRecord(fields, e);
        case OtherItem =>
          assert forall e :: InItems(items[..i + 1], e) <==> InItems(items[..i], e);
      }
    }
    assert items[..|items|] == items;
  }

  method PageEvents(fetch: Fetch, keys: seq<Json>, filter: Option<EventFilter>, before: seq<Event>)
    returns (result: Result<seq<Event>, Stop>)
    ensures result.Ok? <==> PageReadable(fetch, keys)
    ensures result.Err? ==> StopsPage(fetch, keys, result.error)
    ensures result.Ok? ==> forall e :: e in result.value <==> e in before || (InPage(fetch, keys, e) && Passes(filter, e))
  {
    hide InItems, Passes;
    var out := before;
    for i := 0 to |keys|
      invariant PageReadable(fetch, keys[..i])
      invariant forall e :: e in out <==> e in before || (InPage(fetch, keys[..i], e) && Passes(filter, e))
    {
      assert keys[..i + 1] == keys[..i] + [keys[i]];
      match keys[i] {
        case JsonString(key) =>
          match fetch(key) {
            case Err(stop) =>
              assert JsonString(key) in keys && StopsAt(fetch, keys, i, stop);
              return Err(stop);
            case Ok(data) =>
              if data.Sequence? {
                out := ItemEvents(data.items, filter, out);
                assert forall e :: InValue(fetch, key, e) <==> InItems(data.items, e);
              }
              hide InValue;
              assert forall e :: InPage(fetch, keys[..i + 1], e) <==> InPage(fetch, keys[..i], e) || InValue(fetch, key, e);
          }
        case JsonOther =>
          assert forall e :: InPage(fetch, keys[..i + 1], e) <==> InPage(fetch, keys[..i], e);
      }
    }
    assert keys[..|keys|] == keys;
    result := Ok(out);
  }

  /** Exactly the events of the block that pass the filter; otherwise the first value that cannot be read decides. */
  method EventsAtBlock(fetch: Fetch, pages: seq<seq<Json>>, filter: Option<EventFilter>)
    returns (result: Result<seq<Event>, Stop>)
    ensures result.Ok? <==> Readable(fetch, pages)
    ensures result.Err? ==> Stops(fetch, pages, result.error)
    ensures result.Ok? ==> forall e :: e in result.value <==> InBlock(fetch, pages, e) && Passes(filter, e)
  {
    hide InPage, Passes, PageReadable, StopsPage;
    var out := [];
    for i := 0 to |pages|
      invariant Readable(fetch, pages[..i])
      invariant forall e :: e in out <==> InBlock(fetch, pages[..i], e) && Passes(filter, e)
    {
      assert pages[..i + 1] == pages[..i] + [pages[i]];
      var page := PageEvents(fetch, pages[i], filter, out);
      if page.Err? {
        assert pages[i] in pages;
        return Err(page.error);
      }
      out := page.value;
      assert forall e :: InBlock(fetch, pages[..i + 1], e) <==> InBlock(fetch, pages[..i], e) || InPage(fetch, pages[i], e);
    }
    assert pages[..|pages|] == pages;
    result := Ok(out);
  }

  // --- Who was paid to ---

  predicate IsReceiver(field: FieldData) {
    field.name == Some(TO) && field.value.AccountId?
  }

  /** The account is in the only field of this event that names a receiver. */
  ghost predicate SoleReceiver(fields: seq<FieldData>, account: Account) {
    exists i :: 0 <= i < |fields| && IsReceiver(fields[i]) && fields[i].value.account == account
             && forall j :: 0 <= j < |fields| && j != i ==> !IsReceiver(fields[j])
  }

  method WasBalanceReceivedAtAccount(knownAccount: Account, fields: seq<FieldData>) returns (r: bool)
    ensures r <==> SoleReceiver(fields, knownAccount)
  {
    hide ValidUtf8;
    var foundReceiver: Option<Account> := None;
    ghost var at := 0;
    for i := 0 to |fields|
      invariant foundReceiver.None? ==> forall j :: 0 <= j < i ==> !IsReceiver(fields[j])
      invariant foundReceiver.Some? ==>
        at < i && IsReceiver(fields[at]) && fields[at].value.account == foundReceiver.value
        && forall j :: 0 <= j < i && j != at ==> !IsReceiver(fields[j])
    {
      if fields[i].name == Some(TO) {
        match fields[i].value {
          case AccountId(account) =>
            if foundReceiver.None? {
              foundReceiver := Some(account);
              at := i;
            } else {
              assert IsReceiver(fields[at]) && IsReceiver(fields[i]) && at != i;
              return false;
            }
          case OtherValue =>
        }
      }
    }
    r := foundReceiver == Some(knownAccount);
  }

  /** These are the bytes of an ASCII string. */
  ghost predicate Spells(t: Text, s: string) {
    |t| == |s| && forall i :: 0 <= i < |t| ==> t[i] == s[i] as int
  }

  lemma EventIsSpelled()
    ensures Spells(EVENT, "event") && Spells(TO, "to")
  {
    hide ValidUtf8;
    var event: bytes := EVENT;
    var to: bytes := TO;
    assert event == [101, 118, 101, 110, 116] && to == [116, 111];
    assert "event"[0] == 'e' && "event"[1] == 'v' && "event"[2] == 'e' && "event"[3] == 'n' && "event"[4] == 't';
    assert "to"[0] == 't' && "to"[1] == 'o';
  }

  lemma SameSpelling(t: Text, u: Text, s: string)
    requires Spells(t, s) && Spells(u, s)
    ensures t == u
  {
    hide ValidUtf8;
  }

  lemma PalletIsSpelled()
    ensures Spells(BALANCES, "Balances")
  {
    hide ValidUtf8;
    var t: bytes := BALANCES;
    assert t == [66, 97, 108, 97, 110, 99, 101, 115];
    var s := "Balances";
    assert s[0] == 'B' && s[1] == 'a' && s[2] == 'l' && s[3] == 'a' && s[4] == 'n' && s[5] == 'c' && s[6] == 'e' && s[7] == 's';
  }

  lemma VariantIsSpelled()
    ensures Spells(TRANSFER, "Transfer")
  {
    hide ValidUtf8;
    var t: bytes := TRANSFER;
    assert t == [84, 114, 97, 110, 115, 102, 101, 114];
    var s := "Transfer";
    assert s[0] == 'T' && s[1] == 'r' && s[2] == 'a' && s[3] == 'n' && s[4] == 's' && s[5] == 'f' && s[6] == 'e' && s[7] == 'r';
  }

  /**
   * A transfer as chains record it, with fields "from", "to" and "amount": it is received by the
   * account of the second field and by nobody else, so by its sender only if that is the same account.
   */
  lemma TransferIsReceived(sender: Account, receiver: Account, account: Account,
                            from: Text, to: Text, amount: Text)
    requires Spells(from, "from") && Spells(amount, "amount")
    requires Spells(to, "to")
    ensures SoleReceiver([FieldData(Some(from), AccountId(sender)), FieldData(Some(to), AccountId(receiver)),
                          FieldData(Some(amount), OtherValue)], account)
            <==> account == receiver
  {
    hide ValidUtf8;
    EventIsSpelled();
    SameSpelling(to, TO, "to");
    hide TO;
    var fields := [FieldData(Some(from), AccountId(sender)), FieldData(Some(to), AccountId(receiver)),
                   FieldData(Some(amount), OtherValue)];
    assert IsReceiver(fields[1]) && !IsReceiver(fields[0]) && !IsReceiver(fields[2]);
  }

  const BALANCES: Text := (var t: bytes := [66, 97, 108, 97, 110, 99, 101, 115]; AsciiIsText(t); t)
  const TRANSFER: Text := (var t: bytes := [84, 114, 97, 110, 115, 102, 101, 114]; AsciiIsText(t); t)

  /** The block has a transfer of the native token with this account as its only receiver. */
  ghost predicate PaidTo(fetch: Fetch, pages: seq<seq<Json>>, account: Account) {
    exists e :: InBlock(fetch, pages, e) && e.pallet == BALANCES && e.variant == TRANSFER && SoleReceiver(e.fields, account)
  }

  /** The test of one invoice over the events of a block: any of them was received at its account. */
  method AnyReceived(events: seq<Event>, account: Account) returns (r: bool)
    ensures r <==> exists e :: e in events && SoleReceiver(e.fields, account)
  {
    for i := 0 to |events|
      invariant forall j :: 0 <= j < i ==> !SoleReceiver(events[j].fields, account)
    {
      var received := WasBalanceReceivedAtAccount(account, events[i].fields);
      if received {
        return true;
      }
    }
    r := false;
  }

  /**
   * Enumerating the keys of a block's event storage, filtering the events and looking for the
   * account: true exactly when the enumerated part of the block holds such a transfer.
   */
  method TransferSeen(node: KeyNode, fetch: Fetch, account: Account) returns (r: Result<bool, Stop>)
    ensures r.Ok? <==> Readable(fetch, Enumerated(node, MAX_KEY_PAGES, None))
    ensures r.Err? ==> Stops(fetch, Enumerated(node, MAX_KEY_PAGES, None), r.error)
    ensures r.Ok? ==> (r.value <==> PaidTo(fetch, Enumerated(node, MAX_KEY_PAGES, None), account))
  {
    hide InBlock, SoleReceiver, Readable, Stops, Enumerated, ValidUtf8;
    var pages, _ := GetKeysFromStorage(node);
    var filter := Some(EventFilter(BALANCES, Some(TRANSFER)));
    var events := EventsAtBlock(fetch, pages, filter);
    if events.Err? {
      return Err(events.error);
    }
    var seen := AnyReceived(events.value, account);
    r := Ok(seen);
  }
}
