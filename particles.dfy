/**
 * Particle initializers: the record every initializer shares (an id and a
 * name) and the tag-directed dispatch that builds one from a JSON object.
 */
module Particles {
  import opened Wrappers

  const U32Modulus: int := 0x1_0000_0000

  /** irr::u32 */
  type U32 = x: int | 0 <= x < 0x1_0000_0000

  /**
   * The JSON values an initializer object may hold. Integers are unbounded;
   * `JCompound` stands for any array or object.
   */
  datatype Json = JNull | JBool(b: bool) | JInt(i: int) | JString(s: string) | JCompound

  /** A JSON object: its keys and their values. */
  type JsonObject = map<string, Json>

  /** The seven initializer classes fromJSON can dispatch to. */
  datatype Kind =
    | LifeTimeRandom
    | SizeRandom
    | RotationRandom
    | VelocityRandom
    | ColorRandom
    | AlphaRandom
    | AngularVelocityRandom

  /** The exceptions fromJSON can throw. */
  datatype Error =
    | IdNotNumber         // the JSON library's type error when "id" is not a number
    | MissingName
    | UnknownInitializer

  function Message(e: Error): (m: string)
    ensures e == MissingName <==> m == "Particle's initializer must have a name"
    ensures e == UnknownInitializer <==> m == "Particle's got an unknown initializer"
  {
    match e
    case IdNotNumber => "type must be number"
    case MissingName => "Particle's initializer must have a name"
    case UnknownInitializer => "Particle's got an unknown initializer"
  }

  /** A constructed CInitializer: the class it belongs to and the two fields it stores. */
  datatype Initializer = Initializer(kind: Kind, id: U32, name: string) {
    function GetId(): U32 { id }
    function GetName(): string { name }
  }

  /** The name string that selects each kind. */
  function Tag(k: Kind): string
  {
    match k
    case LifeTimeRandom => "lifetimerandom"
    case SizeRandom => "sizerandom"
    case RotationRandom => "rotationrandom"
    case VelocityRandom => "velocityrandom"
    case ColorRandom => "colorrandom"
    case AlphaRandom => "alpharandom"
    case AngularVelocityRandom => "angularvelocityrandom"
  }

  /**
   * The if/else-if chain: the "name" value is compared, as a JSON value, with
   * each of the seven strings in turn; a value of any other type equals none.
   */
  function KindOf(name: Json): Option<Kind>
  {
    if name == JString("lifetimerandom") then Some(LifeTimeRandom)
    else if name == JString("sizerandom") then Some(SizeRandom)
    else if name == JString("rotationrandom") then Some(RotationRandom)
    else if name == JString("velocityrandom") then Some(VelocityRandom)
    else if name == JString("colorrandom") then Some(ColorRandom)
    else if name == JString("alpharandom") then Some(AlphaRandom)
    else if name == JString("angularvelocityrandom") then Some(AngularVelocityRandom)
    else None
  }

  /**
   * The `(irr::u32)` conversion of a JSON value: numbers are truncated to
   * 32 bits (two's complement wrap-around), booleans become 0 or 1, and every
   * other type raises the JSON library's type error.
   */
  function ToU32(v: Json): (r: Result<U32, Error>)
    ensures r.Success? <==> v.JInt? || v.JBool?
    ensures v.JInt? ==> r.value % U32Modulus == v.i % U32Modulus
    ensures r.Failure? ==> r.error == IdNotNumber
  {
    match v
    case JInt(i) => Success(i % U32Modulus)
    case JBool(b) => Success(if b then 1 else 0)
    case _ => Failure(IdNotNumber)
  }

  /** The id: the converted "id" value when the key is present, 0 when it is absent. */
  function ReadId(data: JsonObject): (r: Result<U32, Error>)
    ensures "id" !in data ==> r == Success(0)
    ensures "id" in data ==> r == ToU32(data["id"])
  {
    if "id" in data then ToU32(data["id"]) else Success(0)
  }

  /**
   * The kind-specific sub-parser `Initializers::<Kind>::fromJSON(data, id)`.
   * Its own fields are not part of this model: it yields an initializer of its
   * kind that stores the id it was given and its kind's name.
   */
  function Construct(k: Kind, data: JsonObject, id: U32): (r: Initializer)
    ensures r.kind == k && r.GetId() == id && r.GetName() == Tag(k)
  {
    Initializer(k, id, Tag(k))
  }

  /** CInitializer::fromJSON */
  function FromJson(data: JsonObject): (r: Result<Initializer, Error>)
    ensures r.Success? ==> "name" in data && KindOf(data["name"]) == Some(r.value.kind)
    ensures r.Success? ==> ReadId(data) == Success(r.value.id)
    ensures r.Success? ==> r.value == Construct(r.value.kind, data, ReadId(data).value)
  {
    match ReadId(data)
    case Failure(e) => Failure(e)
    case Success(id) =>
      if "name" !in data then Failure(MissingName)
      else
        match KindOf(data["name"])
        case None => Failure(UnknownInitializer)
        case Some(k) => Success(Construct(k, data, id))
  }

  // ---------------------------------------------------------------------------
  // The name table

  /** Each kind's name selects that kind. */
  lemma KindOfTag(k: Kind)
    ensures KindOf(JString(Tag(k))) == Some(k)
  {
  }

  /** Only the seven strings select a kind, and each selects the kind it names. */
  lemma KindOfOnlyTags(v: Json)
    ensures KindOf(v).Some? <==> exists k: Kind :: v == JString(Tag(k))
    ensures KindOf(v).Some? ==> v == JString(Tag(KindOf(v).value))
  {
  }

  /** Distinct kinds have distinct names: the table is one-to-one. */
  lemma TagInjective(k1: Kind, k2: Kind)
    ensures Tag(k1) == Tag(k2) ==> k1 == k2
  {
  }

  // ---------------------------------------------------------------------------
  // The id

  /** A number already in u32 range is kept as is. */
  lemma ToU32InRange(i: int)
    requires 0 <= i < U32Modulus
    ensures ToU32(JInt(i)) == Success(i)
  {
  }

  /** Numbers that differ by a multiple of 2^32 convert to the same id. */
  lemma ToU32Wraps(i: int, n: nat)
    ensures ToU32(JInt(i + n * U32Modulus)) == ToU32(JInt(i))
  {
  }

  // ---------------------------------------------------------------------------
  // Dispatch

  /** fromJSON returns an initializer exactly when the id converts and the name is one of the seven. */
  lemma FromJsonSucceedsIff(data: JsonObject)
    ensures FromJson(data).Success? <==>
      ReadId(data).Success? && "name" in data && exists k: Kind :: data["name"] == JString(Tag(k))
  {
  }

  /** The error thrown, in the order of the checks: id conversion, missing name, unknown name. */
  lemma FromJsonErrors(data: JsonObject)
    ensures ReadId(data).Failure? ==> FromJson(data) == Failure(IdNotNumber)
    ensures ReadId(data).Success? && "name" !in data ==> FromJson(data) == Failure(MissingName)
    ensures ReadId(data).Success? && "name" in data && (forall k: Kind :: data["name"] != JString(Tag(k)))
      ==> FromJson(data) == Failure(UnknownInitializer)
  {
  }

  /** Without a "name" key no initializer is ever produced, whatever else the object holds. */
  lemma FromJsonNeedsName(data: JsonObject)
    requires "name" !in data
    ensures FromJson(data).Failure?
    ensures FromJson(data).error == MissingName || FromJson(data).error == IdNotNumber
    ensures "id" !in data ==> Message(FromJson(data).error) == "Particle's initializer must have a name"
  {
  }

  /** A name that is not a string never selects a kind. */
  lemma FromJsonNonStringName(data: JsonObject)
    requires "name" in data && !data["name"].JString?
    requires ReadId(data).Success?
    ensures FromJson(data) == Failure(UnknownInitializer)
    ensures Message(FromJson(data).error) == "Particle's got an unknown initializer"
  {
  }

  /**
   * Round trip: an object naming kind `k` with an in-range id (or none) yields
   * that kind, that id (0 when absent) and that name, whatever other keys it has.
   */
  lemma FromJsonRoundTrip(data: JsonObject, k: Kind)
    requires "name" in data && data["name"] == JString(Tag(k))
    requires "id" in data ==> data["id"].JInt? && 0 <= data["id"].i < U32Modulus
    ensures FromJson(data) == Success(Initializer(k, if "id" in data then data["id"].i else 0, Tag(k)))
    ensures FromJson(data).value.GetId() == (if "id" in data then data["id"].i else 0)
    ensures FromJson(data).value.GetName() == Tag(k)
  {
  }

  /** The getters return what the constructor stored. */
  lemma GettersReturnFields(k: Kind, id: U32, name: string)
    ensures Initializer(k, id, name).GetId() == id
    ensures Initializer(k, id, name).GetName() == name
  {
  }
}
