/** `AuthSessionStorage`: one persisted slot holding the encoded session. */
module SessionStorage {
  import opened Wrappers
  import opened Auth

  /** What the slot holds: a session's encoding, or bytes that do not decode as one. */
  datatype Stored = Encoded(session: AuthSession) | Undecodable

  /** Encoding a session can throw; the model takes whether it does as an input. */
  datatype StoreError = EncodingFailed

  class AuthSessionStorage {
    var slot: Option<Stored>

    constructor(initial: Option<Stored>)
      ensures slot == initial
    {
      slot := initial;
    }

    /**
     * `load`: nothing when the slot is empty or does not decode. A decoded
     * session gets a fresh identifier, `freshId`, since `id` is a constant
     * with a default value and decoding does not restore it.
     */
    function Load(freshId: nat): (r: Option<AuthSession>)
      reads this
      ensures r.None? <==> (slot.None? || slot.value.Undecodable?)
      ensures r.Some? ==> r.value.id == freshId && r.value.Content() == slot.value.session.Content()
    {
      match slot
      case None => None
      case Some(Undecodable) => None
      case Some(Encoded(s)) => Some(s.(id := freshId))
    }

    /** `store`: overwrites the slot with the session's encoding, unless encoding throws. */
    method Store(session: AuthSession, encodes: bool) returns (r: Outcome<StoreError>)
      modifies this`slot
      ensures encodes ==> r == Pass && slot == Some(Encoded(session))
      ensures encodes ==> forall k :: Load(k) == Some(session.(id := k))
      ensures !encodes ==> r == Fail(EncodingFailed) && slot == old(slot)
    {
      if !encodes {
        return Fail(EncodingFailed);
      }
      slot := Some(Encoded(session));
      r := Pass;
    }

    /** `clear`: empties the slot. */
    method Clear()
      modifies this`slot
      ensures slot == None
      ensures forall k :: Load(k) == None
    {
      slot := None;
    }
  }
}
