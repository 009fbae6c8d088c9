/**
  JSON objects as the bridge sends and reads them, and the field readers every chain's `from_json` uses. Fields
  are named by a `Key`; one that no reader asks for is `Other`. How a domain type is printed and parsed is a
  `Codec`, taken to be lawful where the code relies on a library for it.
 */
module Json {
  import opened Wrappers

  datatype Key =
    | TYPE | ID | NETWORK | CHAIN_ID | ADDRESS | FROM | TO | AMOUNT | VALUE | DATA | MESSAGE | RAW | PROTOCOL
    | RPC_URL | CHAIN_NAME | GAS_LIMIT | MAX_FEE_PER_GAS | MAX_PRIORITY_FEE_PER_GAS
    | DOMAIN | TYPES | PRIMARY_TYPE | FEE_RATE | PSBT | SIGN_INPUTS | SCRIPT_PATH_INPUTS | FINALIZE | BROADCAST
    | CONTRACT_ADDRESS | FUNCTION_SELECTOR | PARAMETERS | FEE_LIMIT | CALL_VALUE | CONTRACT_NAME | ABI | BYTECODE
    | ORIGIN_ENERGY_LIMIT | USER_FEE_PERCENTAGE
    | Other(name: string)

  datatype Value =
    | Null
    | Bool(b: bool)
    | Int(n: int)
    | Float(x: real)
    | Str(s: string)
    | Arr(items: seq<Value>)
    | Obj(fields: map<Key, Value>)

  datatype Error =
    | Missing(key: Key)
    | Invalid(key: Key)
    | UnknownType
    | Uncheckable(why: string)

  type u32 = n: nat | n < 0x1_0000_0000
  type u64 = n: nat | n < 0x1_0000_0000_0000_0000

  datatype Codec<!T> = Codec(show: T -> string, parse: string -> Option<T>)

  ghost predicate Lawful<T(!new)>(c: Codec<T>) {
    forall x :: c.parse(c.show(x)) == Some(x)
  }

  /** The same for a domain type that is only some of the values of `T`. */
  ghost predicate LawfulOn<T(!new)>(c: Codec<T>, valid: T -> bool) {
    && (forall x :: valid(x) ==> c.parse(c.show(x)) == Some(x))
    && (forall s :: c.parse(s).Some? ==> valid(c.parse(s).value))
  }

  /** What is printed, if anything, is parsed back. */
  ghost predicate ParsesBack<T>(c: Codec<T>, o: Option<T>) {
    o.Some? ==> c.parse(c.show(o.value)) == o
  }

  // ---------- Printing ----------

  const KEYS: set<Key> := {
    TYPE, ID, NETWORK, CHAIN_ID, ADDRESS, FROM, TO, AMOUNT, VALUE, DATA, MESSAGE, RAW, PROTOCOL,
    RPC_URL, CHAIN_NAME, GAS_LIMIT, MAX_FEE_PER_GAS, MAX_PRIORITY_FEE_PER_GAS,
    DOMAIN, TYPES, PRIMARY_TYPE, FEE_RATE, PSBT, SIGN_INPUTS, SCRIPT_PATH_INPUTS, FINALIZE, BROADCAST,
    CONTRACT_ADDRESS, FUNCTION_SELECTOR, PARAMETERS, FEE_LIMIT, CALL_VALUE, CONTRACT_NAME, ABI, BYTECODE,
    ORIGIN_ENERGY_LIMIT, USER_FEE_PERCENTAGE
  }

  /** An object from what each field holds; one that holds nothing is left out, as `skip_serializing_if` does. */
  function Object(field: Key -> Option<Value>): Value {
    Obj(map k | k in KEYS && field(k).Some? :: field(k).value)
  }

  lemma GetObject(field: Key -> Option<Value>, k: Key)
    requires !k.Other?
    ensures Get(Object(field), k) == field(k)
  {
    assert k in KEYS;
  }

  function Printed<T>(c: Codec<T>, o: Option<T>): Option<Value> {
    if o.Some? then Some(Str(c.show(o.value))) else None
  }

  function PrintedText(o: Option<string>): Option<Value> {
    if o.Some? then Some(Str(o.value)) else None
  }

  function PrintedInt(o: Option<nat>): Option<Value> {
    if o.Some? then Some(Int(o.value)) else None
  }

  // ---------- Reading ----------

  function Get(body: Value, k: Key): Option<Value> {
    if body.Obj? && k in body.fields then Some(body.fields[k]) else None
  }

  function StrField(body: Value, k: Key): Result<string, Error> {
    var v := Get(body, k);
    if v.Some? && v.value.Str? then Ok(v.value.s) else Err(Missing(k))
  }

  function ReqParsed<T>(body: Value, k: Key, c: Codec<T>): Result<T, Error> {
    var s :- StrField(body, k);
    var parsed := c.parse(s);
    if parsed.Some? then Ok(parsed.value) else Err(Invalid(k))
  }

  /** A field that is absent, or holds anything but a string, is read as none. */
  function OptParsed<T>(body: Value, k: Key, c: Codec<T>): Result<Option<T>, Error> {
    var v := Get(body, k);
    if v.Some? && v.value.Str? then
      var parsed := c.parse(v.value.s);
      if parsed.Some? then Ok(parsed) else Err(Invalid(k))
    else Ok(None)
  }

  function StrOpt(body: Value, k: Key): Option<string> {
    var v := Get(body, k);
    if v.Some? && v.value.Str? then Some(v.value.s) else None
  }

  function AsU64(v: Value): Option<u64> {
    if v.Int? && 0 <= v.n < 0x1_0000_0000_0000_0000 then Some(v.n) else None
  }

  function U64Opt(body: Value, k: Key): Option<u64> {
    var v := Get(body, k);
    if v.Some? then AsU64(v.value) else None
  }

  function JsonField(body: Value, k: Key): Value {
    var v := Get(body, k);
    if v.Some? then v.value else Obj(map[])
  }

  /** An optional field that was printed is read back. */
  lemma ReadBack<T>(body: Value, k: Key, c: Codec<T>, o: Option<T>)
    requires ParsesBack(c, o) && Get(body, k) == Printed(c, o)
    ensures OptParsed(body, k, c) == Ok(o)
    ensures o.Some? ==> ReqParsed(body, k, c) == Ok(o.value)
  {
  }
}
