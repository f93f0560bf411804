/**
 * The callback token carried by a reservation button: the reservation's
 * external UUID behind the fixed prefix "view_resv_". Decoding strips the
 * prefix once, as Go's `strings.TrimPrefix` does, and leaves data without
 * the prefix as it is instead of rejecting it.
 */
module CallbackToken {

  const Prefix: string := "view_resv_"

  /** Callback data of the button for reservation `uuid`. */
  function Encode(uuid: string): (data: string)
    ensures Prefix <= data && |data| == |Prefix| + |uuid|
  {
    Prefix + uuid
  }

  /** The reservation UUID read from callback data. */
  function Decode(data: string): (uuid: string)
    ensures Prefix <= data ==> Prefix + uuid == data
    ensures !(Prefix <= data) ==> uuid == data
  {
    if Prefix <= data then data[|Prefix|..] else data
  }

  /** Every button's data decodes to the UUID it was built from. */
  lemma DecodeEncode(uuid: string)
    ensures Decode(Encode(uuid)) == uuid
  {
    assert Encode(uuid)[|Prefix|..] == uuid;
  }

  /** Data that carries the prefix is the encoding of what it decodes to. */
  lemma EncodeDecode(data: string)
    requires Prefix <= data
    ensures Encode(Decode(data)) == data
  {
  }

  /** Distinct reservations get distinct callback data. */
  lemma EncodeInjective(u: string, v: string)
    requires Encode(u) == Encode(v)
    ensures u == v
  {
    DecodeEncode(u);
    DecodeEncode(v);
  }

  /** Data lacking the prefix passes through: it is looked up as a UUID as it stands. */
  lemma DecodePassThrough(data: string)
    requires !(Prefix <= data)
    ensures Decode(data) == data && |Decode(data)| == |data|
  {
  }
}
