/** Composite ledger keys. `ctx.stub.createCompositeKey(tag, fields)` is modelled by the
    constructor `Key(tag, fields)`, which makes key derivation injective by construction. */
module Keys {

  datatype Key = Key(tag: string, fields: seq<string>)

  const UserTag: string := "propertyreg.user"
  const RequestTag: string := "propertyreg.user.request"
  const PropertyTag: string := "propertyreg.user.property"
  /** Tag the registrar's approveNewUser reads from; the users' contract never writes it. */
  const ApproveTag: string := "propertyreg.User.approve"
  /** Tag the registrar's approvePropertyRegistration reads from; nothing writes it. */
  const RegistrarPropertyTag: string := "propertyreg.Property"

  /** Each derivation is tagged with its kind, and the identifying fields can be read back from
      the key, in order: the derivation loses nothing. */
  function UserKey(name: string, ssn: string): (k: Key)
    ensures k.tag == UserTag && |k.fields| == 2 && k.fields[0] == name && k.fields[1] == ssn
  {
    Key(UserTag, [name, ssn])
  }

  function RequestKey(name: string, ssn: string): (k: Key)
    ensures k.tag == RequestTag && |k.fields| == 2 && k.fields[0] == name && k.fields[1] == ssn
  {
    Key(RequestTag, [name, ssn])
  }

  function PropertyKey(propertyId: string): (k: Key)
    ensures k.tag == PropertyTag && |k.fields| == 1 && k.fields[0] == propertyId
  {
    Key(PropertyTag, [propertyId])
  }

  function ApproveKey(name: string, ssn: string): (k: Key)
    ensures k.tag == ApproveTag && |k.fields| == 2 && k.fields[0] == name && k.fields[1] == ssn
  {
    Key(ApproveTag, [name, ssn])
  }

  function RegistrarPropertyKey(propertyId: string): (k: Key)
    ensures k.tag == RegistrarPropertyTag && |k.fields| == 1 && k.fields[0] == propertyId
  {
    Key(RegistrarPropertyTag, [propertyId])
  }

  /** The five tags are pairwise distinct, so keys of different kinds never collide. */
  lemma TagsDistinct()
    ensures UserTag != RequestTag && UserTag != PropertyTag && UserTag != ApproveTag
    ensures UserTag != RegistrarPropertyTag && RequestTag != PropertyTag
    ensures RequestTag != ApproveTag && RequestTag != RegistrarPropertyTag
    ensures PropertyTag != ApproveTag && PropertyTag != RegistrarPropertyTag
    ensures ApproveTag != RegistrarPropertyTag
  {
  }

  /** Deriving a key is injective in the identifying fields. */
  lemma UserKeyInjective(n1: string, s1: string, n2: string, s2: string)
    ensures UserKey(n1, s1) == UserKey(n2, s2) <==> n1 == n2 && s1 == s2
  {
  }

  lemma PropertyKeyInjective(p1: string, p2: string)
    ensures PropertyKey(p1) == PropertyKey(p2) <==> p1 == p2
  {
  }
}
