/** The signed messages of the tree auction (algo/dam/message.ts).

    The hash, hash-to-field, signing, verification and key-derivation
    primitives are a `Crypto` capability of total functions the model knows
    nothing about; what it models is how the handler uses them: the
    domain-separated hash preimages, wrapping, the rejection of a wrapper
    whose hash does not match its payload, the memoised public key and the
    fixed-width witness records. */
module DamMessage {
  import opened Wrappers

  type NodeId = string
  /** An item description (algo/dam/item.ts is not part of this model; the
      repository's scenarios use strings). */
  type Item = string
  /** A field element (`bigint`). */
  type Scalar = int
  type SecKey = seq<int>
  type PubKey = (Scalar, Scalar)
  datatype Signature = Signature(r8: (Scalar, Scalar), s: Scalar)

  /** The crypto capability: `hash`, `hash_to_field`, `pubkey`, `sign`,
      `verify`, the size of the field they work in and `toField`, the map
      (`F.fromObject`) that turns every scalar handed to them into a field
      element first (util/crypto.ts:41, 63-64). */
  datatype Crypto = Crypto(
    fieldSize: int,
    toField: Scalar -> Scalar,
    hash: seq<Scalar> -> Scalar,
    hashToField: string -> Scalar,
    pubkey: SecKey -> PubKey,
    sign: (SecKey, Scalar) -> Signature,
    verify: (PubKey, Scalar, Signature) -> bool)

  /** The fan-out the gather witness is padded or truncated to. */
  const MaxWidth := 4

  datatype TransactionUnit = TransactionUnit(buyer: NodeId, transfer: int, allocation: bool)

  /** The five message variants. */
  datatype RawMsg =
    | PubKeyExchange(pubKey: PubKey)
    | Diffusion(seller: NodeId, item: Item)
    | Gather(subtreeMax: int)
    | Scatter(externalMax: int)
    | TResponse(transactions: seq<TransactionUnit>)

  /** The tag that opens the hash preimage of each variant. */
  function Tag(m: RawMsg): nat {
    match m
    case PubKeyExchange(_) => 0
    case Diffusion(_, _) => 1
    case Gather(_) => 2
    case Scatter(_) => 3
    case TResponse(_) => 4
  }

  /** A wrapped message: the payload, its hash and a signature over the hash. */
  datatype DamWrapper = DamWrapper(info: RawMsg, hash: Scalar, sig: Signature)

  /** The list hashed for one ledger line: the buyer hashed to the field,
      the allocation as 1 or 0, the transfer. */
  function LinePreimage(c: Crypto, t: TransactionUnit): seq<Scalar> {
    [c.hashToField(t.buyer), if t.allocation then 1 else 0, t.transfer]
  }

  /** The inner hash of one ledger line. */
  function TransactionHash(c: Crypto, t: TransactionUnit): Scalar {
    c.hash(LinePreimage(c, t))
  }

  /** The list `hash_message` hashes: the variant's tag, then its fields. */
  function Preimage(c: Crypto, m: RawMsg): (p: seq<Scalar>)
    ensures |p| >= 1 && p[0] == Tag(m)
  {
    match m
    case PubKeyExchange(pk) => [0, pk.0, pk.1]
    case Diffusion(seller, item) => [1, c.hashToField(seller), c.hashToField(item)]
    case Gather(v) => [2, v]
    case Scatter(v) => [3, v]
    case TResponse(ts) => [4] + seq(|ts|, k requires 0 <= k < |ts| => TransactionHash(c, ts[k]))
  }

  /** Messages of different variants never share a preimage. */
  lemma PreimagesSeparateVariants(c: Crypto, m1: RawMsg, m2: RawMsg)
    requires Tag(m1) != Tag(m2)
    ensures Preimage(c, m1) != Preimage(c, m2)
  {
    assert Preimage(c, m1)[0] != Preimage(c, m2)[0];
  }

  /** The preimage of a transaction response has one inner hash per ledger
      line, in ledger order. */
  lemma ResponsePreimage(c: Crypto, ts: seq<TransactionUnit>)
    ensures |Preimage(c, TResponse(ts))| == |ts| + 1
    ensures forall k :: 0 <= k < |ts| ==> Preimage(c, TResponse(ts))[k + 1] == TransactionHash(c, ts[k])
  {
  }

  /** `xs` as the field elements the capability works on. */
  function Reduce(c: Crypto, xs: seq<Scalar>): (r: seq<Scalar>)
    ensures |r| == |xs| && forall i :: 0 <= i < |xs| ==> r[i] == c.toField(xs[i])
  {
    seq(|xs|, i requires 0 <= i < |xs| => c.toField(xs[i]))
  }

  /** `F.fromObject` takes an integer to its residue modulo the field size. */
  ghost predicate ReducesModulo(c: Crypto) {
    c.fieldSize > 0 && forall x :: c.toField(x) == x % c.fieldSize
  }

  /** What the program's capability does by construction: `hash` sees its
      inputs only as field elements, `hash` and `hash_to_field` return field
      elements that `toField` keeps, and the five tags are different field
      elements. */
  ghost predicate FieldCrypto(c: Crypto) {
    && (forall a, b :: Reduce(c, a) == Reduce(c, b) ==> c.hash(a) == c.hash(b))
    && (forall a :: c.toField(c.hash(a)) == c.hash(a))
    && (forall x :: c.toField(c.hashToField(x)) == c.hashToField(x))
    && (forall i, j :: 0 <= i < 5 && 0 <= j < 5 && i != j ==> c.toField(i) != c.toField(j))
  }

  /** A signature made with a key verifies under the matching public key. */
  ghost predicate SignaturesSound(c: Crypto) {
    forall sk, h :: c.verify(c.pubkey(sk), h, c.sign(sk, h))
  }

  /** The two lists collide only if they are the same field elements: the
      collision resistance assumed of `hash` for one particular pair. */
  ghost predicate NoCollision(c: Crypto, a: seq<Scalar>, b: seq<Scalar>) {
    c.hash(a) == c.hash(b) ==> Reduce(c, a) == Reduce(c, b)
  }

  /** The same for `hash_to_field` and one pair of strings. */
  ghost predicate NoStringCollision(c: Crypto, x: string, y: string) {
    c.hashToField(x) == c.hashToField(y) ==> x == y
  }

  /** No hash involved in comparing two ledger lines collides. */
  ghost predicate LineCollisionFree(c: Crypto, t1: TransactionUnit, t2: TransactionUnit) {
    NoCollision(c, LinePreimage(c, t1), LinePreimage(c, t2)) && NoStringCollision(c, t1.buyer, t2.buyer)
  }

  /** No hash involved in comparing two messages collides. */
  ghost predicate MessagesCollisionFree(c: Crypto, m1: RawMsg, m2: RawMsg) {
    && NoCollision(c, Preimage(c, m1), Preimage(c, m2))
    && match (m1, m2)
       case (Diffusion(s1, i1), Diffusion(s2, i2)) => NoStringCollision(c, s1, s2) && NoStringCollision(c, i1, i2)
       case (TResponse(ts1), TResponse(ts2)) =>
         forall k :: 0 <= k < |ts1| && k < |ts2| ==> LineCollisionFree(c, ts1[k], ts2[k])
       case _ => true
  }

  /** Two integers that are the same field element. */
  predicate SameElement(c: Crypto, x: int, y: int) {
    c.toField(x) == c.toField(y)
  }

  /** Two ledger lines the hash cannot tell apart: same buyer and
      allocation, transfers equal as field elements. */
  predicate SameLine(c: Crypto, t1: TransactionUnit, t2: TransactionUnit) {
    t1.buyer == t2.buyer && t1.allocation == t2.allocation && SameElement(c, t1.transfer, t2.transfer)
  }

  /** Two messages the hash cannot tell apart: the same variant, with every
      number equal as a field element and every string equal. */
  predicate SameInField(c: Crypto, m1: RawMsg, m2: RawMsg) {
    match (m1, m2)
    case (PubKeyExchange(a), PubKeyExchange(b)) => SameElement(c, a.0, b.0) && SameElement(c, a.1, b.1)
    case (Diffusion(s1, i1), Diffusion(s2, i2)) => s1 == s2 && i1 == i2
    case (Gather(v1), Gather(v2)) => SameElement(c, v1, v2)
    case (Scatter(v1), Scatter(v2)) => SameElement(c, v1, v2)
    case (TResponse(ts1), TResponse(ts2)) =>
      |ts1| == |ts2| && forall k :: 0 <= k < |ts1| ==> SameLine(c, ts1[k], ts2[k])
    case _ => false
  }

  /** Lines that are the same field elements share their inner hash; lines
      whose hashes do not collide share it only then. */
  lemma TransactionHashMatch(c: Crypto, t1: TransactionUnit, t2: TransactionUnit)
    requires FieldCrypto(c)
    ensures SameLine(c, t1, t2) ==> TransactionHash(c, t1) == TransactionHash(c, t2)
    ensures LineCollisionFree(c, t1, t2) ==>
              (TransactionHash(c, t1) == TransactionHash(c, t2) <==> SameLine(c, t1, t2))
  {
    var r1, r2 := Reduce(c, LinePreimage(c, t1)), Reduce(c, LinePreimage(c, t2));
    if SameLine(c, t1, t2) {
      assert r1 == r2;
    }
    if LineCollisionFree(c, t1, t2) && TransactionHash(c, t1) == TransactionHash(c, t2) {
      assert r1 == r2;
      assert r1[0] == r2[0] && r1[1] == r2[1] && r1[2] == r2[2];
      assert c.hashToField(t1.buyer) == c.hashToField(t2.buyer);
    }
  }

  /** The message hash determines the message up to field reduction: two
      messages that are the same field elements share a hash, and two whose
      hashes do not collide share it only then. */
  lemma HashDeterminesMessage(c: Crypto, m1: RawMsg, m2: RawMsg)
    requires FieldCrypto(c)
    ensures SameInField(c, m1, m2) ==> c.hash(Preimage(c, m1)) == c.hash(Preimage(c, m2))
    ensures MessagesCollisionFree(c, m1, m2) ==>
              (c.hash(Preimage(c, m1)) == c.hash(Preimage(c, m2)) <==> SameInField(c, m1, m2))
  {
    if SameInField(c, m1, m2) {
      SameInFieldSharesHash(c, m1, m2);
    }
    if MessagesCollisionFree(c, m1, m2) && c.hash(Preimage(c, m1)) == c.hash(Preimage(c, m2)) {
      SharedHashSameInField(c, m1, m2);
    }
  }

  lemma SharedHashSameInField(c: Crypto, m1: RawMsg, m2: RawMsg)
    requires FieldCrypto(c) && MessagesCollisionFree(c, m1, m2)
    requires c.hash(Preimage(c, m1)) == c.hash(Preimage(c, m2))
    ensures SameInField(c, m1, m2)
  {
    var r1, r2 := Reduce(c, Preimage(c, m1)), Reduce(c, Preimage(c, m2));
    assert r1 == r2;
    assert r1[0] == r2[0];
    match m1
    case PubKeyExchange(_) =>
      assert r1[1] == r2[1] && r1[2] == r2[2];
    case Diffusion(_, _) =>
      assert r1[1] == r2[1] && r1[2] == r2[2];
    case Gather(_) =>
      assert r1[1] == r2[1];
    case Scatter(_) =>
      assert r1[1] == r2[1];
    case TResponse(ts1) =>
      var ts2 := m2.transactions;
      ResponsePreimage(c, ts1);
      ResponsePreimage(c, ts2);
      forall k | 0 <= k < |ts1|
        ensures SameLine(c, ts1[k], ts2[k])
      {
        assert r1[k + 1] == r2[k + 1];
        TransactionHashMatch(c, ts1[k], ts2[k]);
      }
  }

  lemma SameInFieldSharesHash(c: Crypto, m1: RawMsg, m2: RawMsg)
    requires FieldCrypto(c) && SameInField(c, m1, m2)
    ensures c.hash(Preimage(c, m1)) == c.hash(Preimage(c, m2))
  {
    var r1, r2 := Reduce(c, Preimage(c, m1)), Reduce(c, Preimage(c, m2));
    match m1
    case TResponse(ts1) =>
      var ts2 := m2.transactions;
      ResponsePreimage(c, ts1);
      ResponsePreimage(c, ts2);
      forall k | 0 <= k < |ts1|
        ensures TransactionHash(c, ts1[k]) == TransactionHash(c, ts2[k])
      {
        TransactionHashMatch(c, ts1[k], ts2[k]);
      }
      assert r1 == r2;
    case _ =>
      assert r1 == r2;
  }

  /** `fix_length(x, width, fill)`: `x` cut to `width` entries, or padded
      with `fill` up to `width` entries. */
  function FixLength<T>(x: seq<T>, width: nat, fill: T): (r: seq<T>)
    ensures |r| == width
    ensures forall k :: 0 <= k < width ==> r[k] == if k < |x| then x[k] else fill
  {
    if |x| >= width then x[..width] else x + seq(width - |x|, _ => fill)
  }

  /** Fixing the length twice changes nothing, and a fitting list survives as
      the prefix. */
  lemma FixLengthIdempotent<T>(x: seq<T>, width: nat, fill: T)
    ensures FixLength(FixLength(x, width, fill), width, fill) == FixLength(x, width, fill)
    ensures |x| <= width ==> FixLength(x, width, fill)[..|x|] == x
  {
  }

  /** The witness of the diffusion round. */
  datatype DiffusionWitness = DiffusionWitness(
    item: Scalar,
    parentSigR8x: Scalar, parentSigR8y: Scalar, parentSigS: Scalar,
    parentAx: Scalar, parentAy: Scalar,
    selfSigR8x: Scalar, selfSigR8y: Scalar, selfSigS: Scalar,
    selfAx: Scalar, selfAy: Scalar,
    seller: Scalar)

  /** The witness of the gather round; every list has `MaxWidth` entries. */
  datatype GatherWitness = GatherWitness(
    selfSigR8x: Scalar, selfSigR8y: Scalar, selfSigS: Scalar,
    selfAx: Scalar, selfAy: Scalar,
    childAx: seq<Scalar>, childAy: seq<Scalar>,
    childEnabled: seq<Scalar>, childMax: seq<Scalar>,
    selfBid: Scalar, selfMax: Scalar,
    childSigR8x: seq<Scalar>, childSigR8y: seq<Scalar>, childSigS: seq<Scalar>)

  /** `DAMMessageHandler`: a crypto capability, a private key and the
      memoised public key. */
  class DamMessageHandler {
    const crypto: Crypto
    const privKey: SecKey
    var pubKeyMemo: Option<PubKey>

    /** The memo, once filled, holds the key's public key. */
    ghost predicate Valid()
      reads this
    {
      pubKeyMemo.Some? ==> pubKeyMemo.value == crypto.pubkey(privKey)
    }

    constructor (crypto: Crypto, privKey: SecKey)
      ensures Valid() && this.crypto == crypto && this.privKey == privKey && pubKeyMemo == None
    {
      this.crypto := crypto;
      this.privKey := privKey;
      pubKeyMemo := None;
    }

    /** `pub_key()`: derives the public key on the first call only. */
    method PubKey() returns (pk: PubKey)
      requires Valid()
      modifies this
      ensures Valid() && pk == crypto.pubkey(privKey) && pubKeyMemo == Some(pk)
      ensures old(pubKeyMemo).Some? ==> pubKeyMemo == old(pubKeyMemo)
    {
      if pubKeyMemo.None? {
        pubKeyMemo := Some(crypto.pubkey(privKey));
      }
      pk := pubKeyMemo.value;
    }

    /** `hash_message`: the hash of the domain-separated preimage. */
    function HashMessage(m: RawMsg): (h: Scalar)
      ensures FieldCrypto(crypto) ==>
                forall m' :: SameInField(crypto, m', m) ==> crypto.hash(Preimage(crypto, m')) == h
      ensures FieldCrypto(crypto) ==>
                forall m' :: MessagesCollisionFree(crypto, m', m) && crypto.hash(Preimage(crypto, m')) == h ==>
                  SameInField(crypto, m', m)
    {
      var h := crypto.hash(Preimage(crypto, m));
      assert FieldCrypto(crypto) ==>
               forall m' :: (SameInField(crypto, m', m) ==> crypto.hash(Preimage(crypto, m')) == h)
                         && (MessagesCollisionFree(crypto, m', m) && crypto.hash(Preimage(crypto, m')) == h ==>
                               SameInField(crypto, m', m)) by {
        if FieldCrypto(crypto) {
          forall m' {
            HashDeterminesMessage(crypto, m', m);
          }
        }
      }
      h
    }

    /** `wrap`: the payload, its hash and this handler's signature over it. */
    function Wrap(m: RawMsg): (w: DamWrapper)
      ensures w.info == m
      ensures SignaturesSound(crypto) ==> Verify(w, crypto.pubkey(privKey))
    {
      var h := HashMessage(m);
      DamWrapper(m, h, crypto.sign(privKey, h))
    }

    /** `unwrap`: the payload, unchecked; it inverts `wrap` on exactly the
        wrappers whose hash and signature are this handler's own. */
    function Unwrap(w: DamWrapper): (m: RawMsg)
      ensures m == w.info
      ensures Wrap(m) == w <==> w.hash == HashMessage(w.info) && w.sig == crypto.sign(privKey, w.hash)
    {
      w.info
    }

    /** `verify`: false on a hash that does not match the payload, without
        looking at the signature; otherwise the signature check. */
    function Verify(w: DamWrapper, pk: PubKey): (ok: bool)
      ensures w.hash != HashMessage(w.info) ==> !ok
      ensures w.hash == HashMessage(w.info) ==> (ok <==> crypto.verify(pk, w.hash, w.sig))
    {
      var h := HashMessage(w.info);
      if h != w.hash then false else crypto.verify(pk, h, w.sig)
    }

    /** `must_verify`: throws exactly when `verify` is false. */
    function MustVerify(w: DamWrapper, pk: PubKey): (r: Result<()>)
      ensures r.Ok? <==> Verify(w, pk)
      ensures r.Err? ==> r.error == "Invalid signature"
    {
      if !Verify(w, pk) then Err("Invalid signature") else Ok(())
    }

    /** `verify_and_unwrap`: the payload, once the wrapper verifies. */
    function VerifyAndUnwrap(w: DamWrapper, pk: PubKey): (r: Result<RawMsg>)
      ensures r.Ok? <==> Verify(w, pk)
      ensures r.Ok? ==> r.value == w.info
      ensures r.Err? ==> r.error == "Invalid signature"
    {
      var _ :- MustVerify(w, pk);
      Ok(Unwrap(w))
    }

    /** `diffusion_witness`: the parent's signature comes from the message
        received (`up`), this node's from the message it sends on (`down`). */
    method DiffusionWitnessOf(up: DamWrapper, down: DamWrapper, parentPk: PubKey) returns (w: DiffusionWitness)
      requires Valid() && up.info.Diffusion?
      modifies this
      ensures Valid() && pubKeyMemo == Some(crypto.pubkey(privKey))
      ensures w.item == crypto.hashToField(up.info.item) && w.seller == crypto.hashToField(up.info.seller)
      ensures (w.parentSigR8x, w.parentSigR8y, w.parentSigS) == (up.sig.r8.0, up.sig.r8.1, up.sig.s)
      ensures (w.selfSigR8x, w.selfSigR8y, w.selfSigS) == (down.sig.r8.0, down.sig.r8.1, down.sig.s)
      ensures (w.parentAx, w.parentAy) == parentPk && (w.selfAx, w.selfAy) == crypto.pubkey(privKey)
    {
      var pkx := PubKey();
      var pky := PubKey();
      w := DiffusionWitness(
        crypto.hashToField(up.info.item),
        up.sig.r8.0, up.sig.r8.1, up.sig.s,
        parentPk.0, parentPk.1,
        down.sig.r8.0, down.sig.r8.1, down.sig.s,
        pkx.0, pky.1,
        crypto.hashToField(up.info.seller));
    }

    /** `gather_witness`: this node's signature over the gather message it
        sends up, and one column per child message received, padded (with
        this node's own key, or 0) or cut to `MaxWidth`; `childEnabled`
        marks the real columns. */
    method GatherWitnessOf(up: DamWrapper, downs: seq<DamWrapper>, childPks: seq<PubKey>, bid: Scalar, maxPrice: Scalar)
      returns (w: GatherWitness)
      requires Valid() && forall k :: 0 <= k < |downs| ==> downs[k].info.Gather?
      modifies this
      ensures Valid() && pubKeyMemo == Some(crypto.pubkey(privKey))
      ensures (w.selfAx, w.selfAy) == crypto.pubkey(privKey)
      ensures (w.selfSigR8x, w.selfSigR8y, w.selfSigS) == (up.sig.r8.0, up.sig.r8.1, up.sig.s)
      ensures w.selfBid == bid && w.selfMax == maxPrice
      ensures |w.childAx| == |w.childAy| == |w.childEnabled| == |w.childMax| == MaxWidth
      ensures |w.childSigR8x| == |w.childSigR8y| == |w.childSigS| == MaxWidth
      ensures forall k :: 0 <= k < MaxWidth ==>
                && (w.childAx[k], w.childAy[k]) == (if k < |childPks| then childPks[k] else crypto.pubkey(privKey))
                && w.childEnabled[k] == (if k < |downs| then 1 else 0)
                && w.childMax[k] == (if k < |downs| then downs[k].info.subtreeMax else 0)
                && w.childSigR8x[k] == (if k < |downs| then downs[k].sig.r8.0 else 0)
                && w.childSigR8y[k] == (if k < |downs| then downs[k].sig.r8.1 else 0)
                && w.childSigS[k] == (if k < |downs| then downs[k].sig.s else 0)
    {
      var pk := PubKey();
      var n := |downs|;
      var xs := seq(|childPks|, k requires 0 <= k < |childPks| => childPks[k].0);
      var ys := seq(|childPks|, k requires 0 <= k < |childPks| => childPks[k].1);
      var enabled := seq(n, _ => 1);
      var maxes := seq(n, k requires 0 <= k < n => downs[k].info.subtreeMax);
      var r8xs := seq(n, k requires 0 <= k < n => downs[k].sig.r8.0);
      var r8ys := seq(n, k requires 0 <= k < n => downs[k].sig.r8.1);
      var ss := seq(n, k requires 0 <= k < n => downs[k].sig.s);
      w := GatherWitness(
        up.sig.r8.0, up.sig.r8.1, up.sig.s,
        pk.0, pk.1,
        FixLength(xs, MaxWidth, pk.0), FixLength(ys, MaxWidth, pk.1),
        FixLength(enabled, MaxWidth, 0), FixLength(maxes, MaxWidth, 0),
        bid, maxPrice,
        FixLength(r8xs, MaxWidth, 0), FixLength(r8ys, MaxWidth, 0), FixLength(ss, MaxWidth, 0));
    }
  }

  /** Round trip: what a handler wraps verifies under its own public key and
      unwraps to the original payload. */
  lemma WrapVerifies(h: DamMessageHandler, m: RawMsg)
    requires SignaturesSound(h.crypto)
    ensures h.Verify(h.Wrap(m), h.crypto.pubkey(h.privKey))
    ensures h.VerifyAndUnwrap(h.Wrap(m), h.crypto.pubkey(h.privKey)) == Ok(m)
  {
    var w := h.Wrap(m);
    assert h.crypto.verify(h.crypto.pubkey(h.privKey), w.hash, h.crypto.sign(h.privKey, w.hash));
  }

  /** A wrapper whose payload was replaced after signing by one that differs
      as field elements is rejected, whatever key it is checked against, as
      long as none of the hashes comparing the two collides. */
  lemma TamperedPayloadRejected(h: DamMessageHandler, m: RawMsg, m': RawMsg, pk: PubKey)
    requires FieldCrypto(h.crypto) && MessagesCollisionFree(h.crypto, m', m) && !SameInField(h.crypto, m', m)
    ensures !h.Verify(h.Wrap(m).(info := m'), pk)
    ensures h.VerifyAndUnwrap(h.Wrap(m).(info := m'), pk) == Err("Invalid signature")
  {
    if h.HashMessage(m') == h.HashMessage(m) {
      HashDeterminesMessage(h.crypto, m', m);
    }
  }

  /** A payload replaced by one that is the same field elements is not
      detected: `Gather(v)` re-labelled `Gather(v + fieldSize)` still
      verifies under the signer's key and unwraps to the changed payload. */
  lemma AliasedPayloadAccepted(h: DamMessageHandler, v: int)
    requires FieldCrypto(h.crypto) && ReducesModulo(h.crypto) && SignaturesSound(h.crypto)
    ensures Gather(v + h.crypto.fieldSize) != Gather(v)
    ensures h.VerifyAndUnwrap(h.Wrap(Gather(v)).(info := Gather(v + h.crypto.fieldSize)), h.crypto.pubkey(h.privKey))
              == Ok(Gather(v + h.crypto.fieldSize))
  {
    var m, m' := Gather(v), Gather(v + h.crypto.fieldSize);
    ShiftByModulus(v, h.crypto.fieldSize);
    assert SameElement(h.crypto, v + h.crypto.fieldSize, v);
    HashDeterminesMessage(h.crypto, m', m);
  }

  /** A capability over the field of five elements whose hash keeps the
      second field element of its input; it exists only to show that the
      assumptions above can all hold at once. */
  function ToyCrypto(): Crypto {
    Crypto(5, x => x % 5, a => if |a| >= 2 then a[1] % 5 else 0, s => 0,
           sk => (0, 0), (sk, x) => Signature((0, 0), 0), (pk, x, sig) => true)
  }

  /** The assumptions of the lemmas above are jointly satisfiable, and so is
      the precondition of `TamperedPayloadRejected`: a capability meets all
      of them, with two messages that differ in the field and whose hashes
      do not collide. */
  lemma AssumptionsSatisfiable()
    ensures FieldCrypto(ToyCrypto()) && ReducesModulo(ToyCrypto()) && SignaturesSound(ToyCrypto())
    ensures MessagesCollisionFree(ToyCrypto(), Gather(1), Gather(0))
    ensures !SameInField(ToyCrypto(), Gather(1), Gather(0))
  {
    ToyIsFieldCrypto();
    ToyReducesModulo();
    var c := ToyCrypto();
    assert Reduce(c, Preimage(c, Gather(1)))[1] != Reduce(c, Preimage(c, Gather(0)))[1];
  }

  lemma ToyIsFieldCrypto()
    ensures FieldCrypto(ToyCrypto())
  {
    var c := ToyCrypto();
    forall a, b | Reduce(c, a) == Reduce(c, b)
      ensures c.hash(a) == c.hash(b)
    {
      if |a| >= 2 {
        assert Reduce(c, a)[1] == Reduce(c, b)[1];
      }
    }
    forall a ensures c.toField(c.hash(a)) == c.hash(a) {
      if |a| >= 2 {
        assert c.hash(a) == a[1] % 5;
      }
    }
    forall i, j | 0 <= i < 5 && 0 <= j < 5 && i != j
      ensures c.toField(i) != c.toField(j)
    {
      assert c.toField(i) == i && c.toField(j) == j;
    }
  }

  lemma ToyReducesModulo()
    ensures ReducesModulo(ToyCrypto()) && SignaturesSound(ToyCrypto())
  {
  }

  lemma ShiftByModulus(v: int, p: int)
    requires p > 0
    ensures (v + p) % p == v % p
  {
    var q, r := v / p, v % p;
    var q', r' := (v + p) / p, (v + p) % p;
    var k := q' - q - 1;
    assert p * q' + r' == p * q + r + p;
    assert p * k == r - r' by {
      assert p * k == p * q' - p * q - p;
    }
    if k > 0 {
      MultipleAtLeast(p, k);
    }
  }

  lemma {:induction false} MultipleAtLeast(p: int, k: int)
    requires p > 0 && k >= 1
    ensures p * k >= p
    decreases k
  {
    if k > 1 {
      MultipleAtLeast(p, k - 1);
      assert p * k == p * (k - 1) + p;
    }
  }
}
