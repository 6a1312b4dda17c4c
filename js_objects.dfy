/**
 * JavaScript values and objects, as far as the method validator and the client
 * tracker inspect them: property lookup along the prototype chain, `in`,
 * `hasOwnProperty`, `typeof` and truthiness. Objects live in a heap indexed by
 * creation order; a prototype is always older than the objects inheriting from
 * it, and object 0 is `Object.prototype`.
 */
module JsObjects {
  import opened Wrappers

  /** A property key: a string, or a symbol with its description. */
  datatype PropKey = Named(name: string) | Symbol(description: string)

  /** A value; numbers other than integers are not modelled. */
  datatype JsValue =
    | Undefined
    | Null
    | Bool(b: bool)
    | Number(n: int)
    | Str(s: string)
    | Ref(id: nat)

  datatype Property = Property(key: PropKey, value: JsValue)

  /** An object: its own properties in `Reflect.ownKeys` order, its prototype, and whether it is callable. */
  datatype JsObject = JsObject(own: seq<Property>, proto: Option<nat>, callable: bool)

  type Heap = map<nat, JsObject>

  const ObjectPrototype: nat := 0

  /** What a failed property access throws. */
  datatype Thrown = TypeError

  /** `Object.prototype` exists, and every prototype is an older object of the heap. */
  predicate WellFormed(heap: Heap) {
    && ObjectPrototype in heap
    && forall id :: id in heap && heap[id].proto.Some? ==> heap[id].proto.value < id && heap[id].proto.value in heap
  }

  predicate Truthy(v: JsValue) {
    match v
    case Undefined => false
    case Null => false
    case Bool(b) => b
    case Number(n) => n != 0
    case Str(s) => s != ""
    case Ref(_) => true
  }

  /** `typeof v`. */
  function TypeOf(heap: Heap, v: JsValue): (r: string)
    ensures r == "function" <==> v.Ref? && v.id in heap && heap[v.id].callable
  {
    match v
    case Undefined => "undefined"
    case Null => "object"
    case Bool(_) => "boolean"
    case Number(_) => "number"
    case Str(_) => "string"
    case Ref(id) => if id in heap && heap[id].callable then "function" else "object"
  }

  /** The value of the first own property with the key. */
  function OwnValue(own: seq<Property>, key: PropKey): (r: Option<JsValue>)
    ensures r.Some? <==> exists i :: 0 <= i < |own| && own[i].key == key
    ensures r.Some? ==> exists i :: 0 <= i < |own| && own[i] == Property(key, r.value)
  {
    if own == [] then None
    else if own[0].key == key then Some(own[0].value)
    else
      var r := OwnValue(own[1..], key);
      assert forall i :: 1 <= i < |own| ==> own[i] == own[1..][i - 1];
      r
  }

  /** `key in obj` for an object of the heap: the key is own to it or to an object of its chain. */
  predicate HasProperty(heap: Heap, id: nat, key: PropKey)
    requires WellFormed(heap) && id in heap
    decreases id
  {
    || OwnValue(heap[id].own, key).Some?
    || (heap[id].proto.Some? && HasProperty(heap, heap[id].proto.value, key))
  }

  /** `obj[key]` for an object of the heap: the first definition along the prototype chain. */
  function Get(heap: Heap, id: nat, key: PropKey): (r: JsValue)
    requires WellFormed(heap) && id in heap
    ensures !HasProperty(heap, id, key) ==> r == Undefined
    ensures OwnValue(heap[id].own, key).Some? ==> r == OwnValue(heap[id].own, key).value
    decreases id
  {
    match OwnValue(heap[id].own, key)
    case Some(v) => v
    case None => if heap[id].proto.Some? then Get(heap, heap[id].proto.value, key) else Undefined
  }

  /** `v[key]`; primitives are seen without their wrapper prototypes. */
  function GetValue(heap: Heap, v: JsValue, key: PropKey): (r: JsValue)
    requires WellFormed(heap)
    ensures !(v.Ref? && v.id in heap) ==> r == Undefined
  {
    if v.Ref? && v.id in heap then Get(heap, v.id, key) else Undefined
  }

  /** The own properties `Object.getOwnPropertyNames` and `getOwnPropertySymbols` list. */
  function OwnProperties(heap: Heap, v: JsValue): seq<Property> {
    if v.Ref? && v.id in heap then heap[v.id].own else []
  }

  /** `Object.getPrototypeOf(v)`, `Null` at the end of the chain. */
  function PrototypeOf(heap: Heap, v: JsValue): (r: JsValue)
    ensures r.Ref? ==> v.Ref? && v.id in heap && r.id < v.id
    requires WellFormed(heap)
  {
    if v.Ref? && v.id in heap && heap[v.id].proto.Some? then Ref(heap[v.id].proto.value) else Null
  }
}
