// The signer: the only holder of the seed. It derives one key pair per order from the recipient and
// the order id, prints its address and signs with it, until it is told to shut down.
module Signing {
  import opened Definitions

  type Entropy = bytes

  /** A signature, as the account of the key that made it and the bytes it is over. */
  datatype Signature = Signature(signer: Account, over: bytes)

  datatype Request = PublicKey(id: Id, ss58: u16) | Sign(id: Id, signable: bytes) | Shutdown

  datatype Reply = Address(text: Text) | Signed(signature: Signature) | Cleared

  /** Key derivation and address printing, which the repository takes from libraries. */
  datatype Crypto = Crypto(
    derive: (Entropy, Account, Id) -> Account,
    toBase58: (Account, u16) -> Text,
    fromBase58: Text -> Option<Account>)
  {
    ghost predicate Valid() {
      forall a: Account, p: u16 :: fromBase58(toBase58(a, p)) == Some(a)
    }
  }

  class Signer {
    const crypto: Crypto
    const recipient: Account
    var seedEntropy: Entropy
    var serving: bool

    constructor (crypto: Crypto, recipient: Account, entropy: Entropy)
      ensures this.crypto == crypto && this.recipient == recipient && seedEntropy == entropy && serving
    {
      this.crypto, this.recipient, seedEntropy, serving := crypto, recipient, entropy, true;
    }

    /** The account of the key pair of an order. */
    function Account(id: Id): Account
      reads this
    {
      crypto.derive(seedEntropy, recipient, id)
    }

    method Public(id: Id, ss58: u16) returns (r: Option<Text>)
      ensures r.Some? <==> serving
      ensures serving ==> r == Some(crypto.toBase58(Account(id), ss58))
    {
      if !serving {
        return None;
      }
      r := Some(crypto.toBase58(crypto.derive(seedEntropy, recipient, id), ss58));
    }

    method SignFor(id: Id, signable: bytes) returns (r: Option<Signature>)
      ensures r.Some? <==> serving
      ensures serving ==> r == Some(Signature(Account(id), signable))
    {
      if !serving {
        return None;
      }
      r := Some(Signature(crypto.derive(seedEntropy, recipient, id), signable));
    }

    /** The seed is overwritten with zeros of the same length. */
    method Zeroize()
      modifies this
      ensures |seedEntropy| == old(|seedEntropy|) && forall b :: b in seedEntropy ==> b == 0
      ensures serving == old(serving)
    {
      seedEntropy := seq(|seedEntropy|, _ => 0);
    }

    /**
     * The request loop, up to the first shutdown request, after which nothing is answered. Any
     * address it gave out for an order, under whatever prefix, parses to the account of the key of
     * every signature it made for that order; and the seed is gone exactly if it was shut down.
     */
    method Serve(requests: seq<Request>) returns (replies: seq<Reply>)
      requires serving
      modifies this
      ensures |replies| <= |requests|
      ensures serving <==> Shutdown !in requests
      ensures serving ==> |replies| == |requests| && seedEntropy == old(seedEntropy)
      ensures !serving ==> |replies| > 0 && requests[|replies| - 1] == Shutdown
                           && Shutdown !in requests[..|replies| - 1] && forall b :: b in seedEntropy ==> b == 0
      ensures crypto.Valid() ==> KeysAgree(crypto, requests, replies)
    {
      replies := [];
      for i := 0 to |requests|
        invariant serving && |replies| == i && Shutdown !in requests[..i] && seedEntropy == old(seedEntropy)
        invariant forall k :: 0 <= k < i ==> AnsweredBy(crypto, old(seedEntropy), recipient, requests[k], replies[k])
      {
        assert requests[..i + 1] == requests[..i] + [requests[i]];
        match requests[i] {
          case PublicKey(id, ss58) =>
            var address := Public(id, ss58);
            replies := replies + [Address(address.value)];
          case Sign(id, signable) =>
            var signature := SignFor(id, signable);
            replies := replies + [Signed(signature.value)];
          case Shutdown =>
            Zeroize();
            replies := replies + [Cleared];
            serving := false;
            AnswersAgree(crypto, old(seedEntropy), recipient, requests, replies);
            return;
        }
      }
      assert requests[..|requests|] == requests;
      AnswersAgree(crypto, old(seedEntropy), recipient, requests, replies);
    }
  }

  predicate AnsweredBy(crypto: Crypto, seed: Entropy, recipient: Account, request: Request, reply: Reply) {
    match request
    case PublicKey(id, ss58) => reply == Address(crypto.toBase58(crypto.derive(seed, recipient, id), ss58))
    case Sign(id, signable) => reply == Signed(Signature(crypto.derive(seed, recipient, id), signable))
    case Shutdown => reply == Cleared
  }

  /** Addresses and signatures of one order belong to one key, and signatures are over what was asked. */
  ghost predicate KeysAgree(crypto: Crypto, requests: seq<Request>, replies: seq<Reply>)
    requires |replies| <= |requests|
  {
    forall i, j :: 0 <= i < |replies| && 0 <= j < |replies|
                   && requests[i].PublicKey? && requests[j].Sign? && requests[i].id == requests[j].id ==>
                     && replies[i].Address? && replies[j].Signed?
                     && crypto.fromBase58(replies[i].text) == Some(replies[j].signature.signer)
                     && replies[j].signature.over == requests[j].signable
  }

  lemma AnswersAgree(crypto: Crypto, seed: Entropy, recipient: Account, requests: seq<Request>, replies: seq<Reply>)
    requires |replies| <= |requests|
    requires forall k :: 0 <= k < |replies| ==> AnsweredBy(crypto, seed, recipient, requests[k], replies[k])
    ensures crypto.Valid() ==> KeysAgree(crypto, requests, replies)
  {
    forall i, j | 0 <= i < |replies| && 0 <= j < |replies| && crypto.Valid()
                  && requests[i].PublicKey? && requests[j].Sign? && requests[i].id == requests[j].id
      ensures && replies[i].Address? && replies[j].Signed?
              && crypto.fromBase58(replies[i].text) == Some(replies[j].signature.signer)
              && replies[j].signature.over == requests[j].signable
    {
      assert AnsweredBy(crypto, seed, recipient, requests[i], replies[i]);
      assert AnsweredBy(crypto, seed, recipient, requests[j], replies[j]);
    }
  }
}
