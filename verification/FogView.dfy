/**
 * The compressed form in which fog keeps a transaction output for its owner
 * (fog/fog_types/src/view.rs): TxOut -> FogTxOut -> TxOutRecord -> FogTxOut -> TxOut.
 *
 * The primitives of the surrounding libraries (point decompression, key exchange, the value
 * mask, the amount commitment, crc32) are the fields of a `Crypto` value, so every statement
 * below holds for all of them.
 */
module FogView {
  import opened Prelude

  type Bytes = seq<bv8>
  type Key32 = b: Bytes | |b| == 32 witness seq(32, _ => 0)
  type IngressKey = nat
  type ViewKey = nat
  type Point = nat
  type TxOutSecret = nat

  /** An encrypted fog hint: it opens under one ingress key, and then holds a view public key or,
      when a broken client wrote it, bytes that are not a curve point. */
  datatype FogHint = Sealed(ingress: IngressKey, view: Option<ViewKey>) | Zeroed

  datatype Amount = Amount(commitment: Bytes, maskedValue: bv64)
  datatype TxOut = TxOut(amount: Amount, targetKey: Key32, publicKey: Key32, hint: FogHint)

  datatype FogTxOut = FogTxOut(targetKey: Key32, publicKey: Key32, maskedValue: bv64, commitmentCrc: bv32)
  datatype FogTxOutMetadata = FogTxOutMetadata(globalIndex: nat, blockIndex: nat, timestamp: nat)

  datatype TxOutRecord = TxOutRecord(
    commitmentData: Bytes, maskedValue: bv64, targetKeyData: Bytes, publicKeyData: Bytes,
    globalIndex: nat, blockIndex: nat, timestamp: nat, commitmentCrc: bv32)

  datatype KeyError = LengthMismatch(expected: nat, found: nat)
  datatype FogTxOutError = ChecksumMismatch | AmountFailed | InvalidKey

  datatype Crypto = Crypto(
    decompress: Key32 -> Option<Point>,
    sharedSecret: (ViewKey, Point) -> TxOutSecret,
    valueMask: TxOutSecret -> bv64,
    commitment: (bv64, TxOutSecret) -> Option<Bytes>,
    crc32: Bytes -> bv32)

  /** Amount::new, which blinds the value and commits to it; None is its AmountError. */
  function NewAmount(c: Crypto, value: bv64, secret: TxOutSecret): Option<Amount> {
    match c.commitment(value, secret)
    case None => None
    case Some(point) => Some(Amount(point, value ^ c.valueMask(secret)))
  }

  function ToFogTxOut(c: Crypto, txo: TxOut): FogTxOut {
    FogTxOut(txo.targetKey, txo.publicKey, txo.amount.maskedValue, c.crc32(txo.amount.commitment))
  }

  function NewTxOutRecord(f: FogTxOut, meta: FogTxOutMetadata): TxOutRecord {
    TxOutRecord([], f.maskedValue, f.targetKey, f.publicKey,
                meta.globalIndex, meta.blockIndex, meta.timestamp, f.commitmentCrc)
  }

  function ParseKey(data: Bytes): Result<Key32, KeyError> {
    if |data| == 32 then Ok(data) else Err(LengthMismatch(32, |data|))
  }

  /** TxOutRecord::get_fog_tx_out: the new form carries only the crc of the commitment, the old
      form carries the 32 commitment bytes and the crc is computed here. */
  function GetFogTxOut(c: Crypto, r: TxOutRecord): Result<FogTxOut, KeyError> {
    if |r.commitmentData| != 0 && |r.commitmentData| != 32 then
      Err(LengthMismatch(32, |r.commitmentData|))
    else
      var crc := if r.commitmentData == [] then r.commitmentCrc else c.crc32(r.commitmentData);
      match ParseKey(r.targetKeyData)
      case Err(e) => Err(e)
      case Ok(targetKey) =>
        match ParseKey(r.publicKeyData)
        case Err(e) => Err(e)
        case Ok(publicKey) => Ok(FogTxOut(targetKey, publicKey, r.maskedValue, crc))
  }

  /** FogTxOut::try_recover_tx_out: rebuild the amount from the view key, then compare crcs. */
  function TryRecoverTxOut(c: Crypto, f: FogTxOut, view: ViewKey): Result<TxOut, FogTxOutError> {
    match c.decompress(f.publicKey)
    case None => Err(InvalidKey)
    case Some(point) =>
      var secret := c.sharedSecret(view, point);
      Checked(c, f, NewAmount(c, f.maskedValue ^ c.valueMask(secret), secret))
  }

  function Checked(c: Crypto, f: FogTxOut, amount: Option<Amount>): Result<TxOut, FogTxOutError> {
    match amount
    case None => Err(AmountFailed)
    case Some(amount) =>
      if f.commitmentCrc != c.crc32(amount.commitment) then Err(ChecksumMismatch)
      else Ok(TxOut(amount, f.targetKey, f.publicKey, Zeroed))
  }

  /** The whole path an output takes from the ledger to its owner. */
  function Recovered(c: Crypto, txo: TxOut, meta: FogTxOutMetadata, view: ViewKey): Result<TxOut, FogTxOutError> {
    match GetFogTxOut(c, NewTxOutRecord(ToFogTxOut(c, txo), meta))
    case Err(_) => Err(InvalidKey)
    case Ok(f) => TryRecoverTxOut(c, f, view)
  }

  /** An output was built for `view` when its amount is one Amount::new makes from the secret shared with it. */
  ghost predicate BuiltFor(c: Crypto, txo: TxOut, view: ViewKey) {
    c.decompress(txo.publicKey).Some?
    && exists value: bv64 ::
         NewAmount(c, value, c.sharedSecret(view, c.decompress(txo.publicKey).value)) == Some(txo.amount)
  }

  /** The crc-only record decodes to the FogTxOut it was made from, whatever the metadata. */
  lemma RecordRoundTrip(c: Crypto, f: FogTxOut, meta: FogTxOutMetadata)
    ensures GetFogTxOut(c, NewTxOutRecord(f, meta)) == Ok(f)
  {
    assert ParseKey(f.targetKey) == Ok(f.targetKey);
  }

  /** The record says where in the ledger the output stands and when its block was made. */
  lemma RecordSaysWhere(f: FogTxOut, globalIndex: nat, blockIndex: nat, timestamp: nat)
    ensures var r := NewTxOutRecord(f, FogTxOutMetadata(globalIndex, blockIndex, timestamp));
            r.globalIndex == globalIndex && r.blockIndex == blockIndex && r.timestamp == timestamp
  {
  }

  /** An old record, holding the commitment itself, decodes to the same FogTxOut as the new record
      of the same output; exactly the 32-byte commitments are accepted. */
  lemma OldRecordAgrees(c: Crypto, txo: TxOut, meta: FogTxOutMetadata, staleCrc: bv32)
    requires txo.amount.commitment != []
    ensures var f := ToFogTxOut(c, txo);
            var old_ := NewTxOutRecord(f, meta).(commitmentData := txo.amount.commitment, commitmentCrc := staleCrc);
            (GetFogTxOut(c, old_) == GetFogTxOut(c, NewTxOutRecord(f, meta))) <==> |txo.amount.commitment| == 32
  {
    RecordRoundTrip(c, ToFogTxOut(c, txo), meta);
    assert ParseKey(txo.targetKey) == Ok(txo.targetKey);
  }

  /** A record is refused exactly if one of its keys or its commitment has the wrong length, and the error says
      which length was found. */
  lemma RefusedIffWrongLength(c: Crypto, r: TxOutRecord)
    ensures GetFogTxOut(c, r).Ok? <==>
            (|r.commitmentData| == 0 || |r.commitmentData| == 32) && |r.targetKeyData| == 32 && |r.publicKeyData| == 32
    ensures GetFogTxOut(c, r).Err? ==>
              var e := GetFogTxOut(c, r).error;
              e.expected == 32 != e.found && e.found in {|r.commitmentData|, |r.targetKeyData|, |r.publicKeyData|}
  {
  }

  /** Recovery fails at once if the public key is not a point. */
  lemma InvalidKeyIff(c: Crypto, f: FogTxOut, view: ViewKey)
    ensures TryRecoverTxOut(c, f, view) == Err(InvalidKey) <==> c.decompress(f.publicKey).None?
  {
  }

  /** Beyond that it fails if the amount cannot be formed, or if its commitment has another checksum. */
  lemma CheckedFailsIff(c: Crypto, f: FogTxOut, amount: Option<Amount>)
    ensures Checked(c, f, amount) == Err(AmountFailed) <==> amount.None?
    ensures Checked(c, f, amount) == Err(ChecksumMismatch) <==>
            amount.Some? && c.crc32(amount.value.commitment) != f.commitmentCrc
    ensures Checked(c, f, amount).Ok? ==> amount.Some? && Checked(c, f, amount).value.amount == amount.value
  {
  }

  lemma OwnerRecovers(c: Crypto, txo: TxOut, view: ViewKey, value: bv64)
    requires c.decompress(txo.publicKey).Some?
    requires NewAmount(c, value, c.sharedSecret(view, c.decompress(txo.publicKey).value)) == Some(txo.amount)
    ensures TryRecoverTxOut(c, ToFogTxOut(c, txo), view) == Ok(txo.(hint := Zeroed))
  {
  }

  lemma OnlyOwnerRecovers(c: Crypto, txo: TxOut, view: ViewKey)
    requires TryRecoverTxOut(c, ToFogTxOut(c, txo), view) == Ok(txo.(hint := Zeroed))
    ensures BuiltFor(c, txo, view)
  {
    var secret := c.sharedSecret(view, c.decompress(txo.publicKey).value);
    var value := txo.amount.maskedValue ^ c.valueMask(secret);
    var amount := NewAmount(c, value, secret);
    assert amount.Some? && amount.value == txo.amount;
  }

  /** Compression loses nothing for the owner: recovery returns the same output with its hint zeroed
      exactly when the output was built for that view key. */
  lemma RecoveryRoundTrip(c: Crypto, txo: TxOut, meta: FogTxOutMetadata, view: ViewKey)
    ensures Recovered(c, txo, meta, view) == Ok(txo.(hint := Zeroed)) <==> BuiltFor(c, txo, view)
  {
    RecordRoundTrip(c, ToFogTxOut(c, txo), meta);
    if TryRecoverTxOut(c, ToFogTxOut(c, txo), view) == Ok(txo.(hint := Zeroed)) {
      OnlyOwnerRecovers(c, txo, view);
    } else if BuiltFor(c, txo, view) {
      var value: bv64 :|
        NewAmount(c, value, c.sharedSecret(view, c.decompress(txo.publicKey).value)) == Some(txo.amount);
      OwnerRecovers(c, txo, view, value);
    }
  }

  /** Whatever comes back from a record keeps both keys and the masked value of the original. */
  lemma RecoveryKeepsKeys(c: Crypto, txo: TxOut, meta: FogTxOutMetadata, view: ViewKey)
    ensures var r := Recovered(c, txo, meta, view);
            r.Ok? ==>
              && r.value.targetKey == txo.targetKey && r.value.publicKey == txo.publicKey
              && r.value.amount.maskedValue == txo.amount.maskedValue
              && c.crc32(r.value.amount.commitment) == c.crc32(txo.amount.commitment)
  {
    var f := ToFogTxOut(c, txo);
    RecordRoundTrip(c, f, meta);
  }
}
