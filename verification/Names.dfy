/** Names shared by every model: the identities Lawang stores and compares. */
module Names {

  /** Go strings are byte strings; a text is one. */
  type byte = b: int | 0 <= b < 256
  type Text = seq<byte>

  /** A literal of the source. */
  function Ascii(s: string): Text
    requires forall i :: 0 <= i < |s| ==> s[i] < 128 as char
  {
    seq(|s|, i requires 0 <= i < |s| => s[i] as int)
  }

  predicate IsDigit(c: byte) {
    0x30 <= c <= 0x39
  }

  predicate IsUpper(c: byte) {
    0x41 <= c <= 0x5A
  }

  predicate IsLower(c: byte) {
    0x61 <= c <= 0x7A
  }

  /** A value that may be missing (a NULL column, a query that returned no row). */
  datatype Option<+T> = None | Some(value: T)

  /** A value, or the error a function returned instead. */
  datatype Result<+T, +E> = Ok(value: T) | Err(error: E)

  /** A queue of the outbox: one tenant and one ordering key. */
  datatype Key = Key(tenant: Text, name: Text)

  /** A source entity, which is what a supersede chain is kept for. */
  datatype Entity = Entity(tenant: Text, provider: Text, externalId: Text)

  /** A record id. The real id is a hash of these five parts; blake3 is taken to be collision free, so
      the id is identified with the parts themselves (module `RecordIds` proves that the joined hash
      input determines them). */
  datatype RecordId = RecordId(entity: Entity, version: Text, scope: Text)

  /** Primary keys, lease tokens and delivery ids are only ever compared. */
  type RowId = nat
  type Token = nat
  type DeliveryId = nat
}
