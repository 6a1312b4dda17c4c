/**
 * The method validator (src/github/MethodValidator.ts): checks that an object
 * carries every required method, sorting the required names into missing,
 * invalid and valid ones, lists the properties along its prototype chain, and
 * builds a wrapper that refuses to be created for an invalid object.
 */
module MethodValidatorModel {
  import opened Wrappers
  import opened JsObjects
  import opened JsStrings

  // ---------------------------------------------------------------------------
  // The verdict on one required name
  // ---------------------------------------------------------------------------

  datatype Verdict = MissingMethod | InvalidMethod | ValidMethod

  /** Missing when the value is `undefined` or `null`, invalid when it is not a function. */
  function VerdictOf(heap: Heap, obj: JsValue, name: string): (v: Verdict)
    requires WellFormed(heap)
    ensures v == MissingMethod <==> GetValue(heap, obj, Named(name)) in {Undefined, Null}
    ensures v == ValidMethod <==> TypeOf(heap, GetValue(heap, obj, Named(name))) == "function"
  {
    var member := GetValue(heap, obj, Named(name));
    if member == Undefined || member == Null then MissingMethod
    else if TypeOf(heap, member) != "function" then InvalidMethod
    else ValidMethod
  }

  /** The names with the given verdict, in their order. */
  function Selected(heap: Heap, obj: JsValue, names: seq<string>, verdict: Verdict): (r: seq<string>)
    requires WellFormed(heap)
    ensures |r| <= |names|
    decreases |names|
  {
    if names == [] then []
    else
      var last := names[|names| - 1];
      Selected(heap, obj, names[..|names| - 1], verdict) + (if VerdictOf(heap, obj, last) == verdict then [last] else [])
  }

  /** `missingMethods`: every required name for an object that is not there at all. */
  function MissingOf(heap: Heap, obj: JsValue, required: seq<string>): seq<string>
    requires WellFormed(heap)
  {
    if Truthy(obj) then Selected(heap, obj, required, MissingMethod) else required
  }

  /** `invalidMethods`. */
  function InvalidOf(heap: Heap, obj: JsValue, required: seq<string>): seq<string>
    requires WellFormed(heap)
  {
    if Truthy(obj) then Selected(heap, obj, required, InvalidMethod) else []
  }

  /** `ys` keeps some of the elements of `xs`, in their order. */
  predicate IsSubsequence(ys: seq<string>, xs: seq<string>)
    decreases |xs|
  {
    || ys == []
    || (xs != [] && ((ys[0] == xs[0] && IsSubsequence(ys[1..], xs[1..])) || IsSubsequence(ys, xs[1..])))
  }

  /** Appending to the longer list keeps a subsequence one, and so does appending to both. */
  lemma {:induction false} SubsequenceExtend(ys: seq<string>, xs: seq<string>, x: string)
    requires IsSubsequence(ys, xs)
    ensures IsSubsequence(ys, xs + [x]) && IsSubsequence(ys + [x], xs + [x])
    decreases |xs|
  {
    if xs == [] {
      assert ys == [] && [x][1..] == [];
    } else {
      assert (xs + [x])[1..] == xs[1..] + [x];
      if ys == [] {
        SubsequenceExtend(ys, xs[1..], x);
        assert ys + [x] == [x];
      } else if ys[0] == xs[0] && IsSubsequence(ys[1..], xs[1..]) {
        SubsequenceExtend(ys[1..], xs[1..], x);
        assert (ys + [x])[1..] == ys[1..] + [x];
      } else {
        SubsequenceExtend(ys, xs[1..], x);
      }
    }
  }

  /** Each list of the partition keeps the required names' order. */
  lemma {:induction false} SelectedIsSubsequence(heap: Heap, obj: JsValue, names: seq<string>, verdict: Verdict)
    requires WellFormed(heap)
    ensures IsSubsequence(Selected(heap, obj, names, verdict), names)
    decreases |names|
  {
    if names != [] {
      var front := names[..|names| - 1];
      var last := names[|names| - 1];
      SelectedIsSubsequence(heap, obj, front, verdict);
      var prev := Selected(heap, obj, front, verdict);
      SubsequenceExtend(prev, front, last);
      assert front + [last] == names;
      if VerdictOf(heap, obj, last) == verdict {
        assert Selected(heap, obj, names, verdict) == prev + [last];
      } else {
        assert Selected(heap, obj, names, verdict) == prev + [] == prev;
      }
    }
  }

  /** A name is selected exactly when it is required and has that verdict. */
  lemma {:induction false} SelectedMembers(heap: Heap, obj: JsValue, names: seq<string>, verdict: Verdict)
    requires WellFormed(heap)
    ensures forall n :: n in Selected(heap, obj, names, verdict) <==> n in names && VerdictOf(heap, obj, n) == verdict
    decreases |names|
  {
    if names != [] {
      var front := names[..|names| - 1];
      SelectedMembers(heap, obj, front, verdict);
      assert front + [names[|names| - 1]] == names;
    }
  }

  /** Every required name of a present object lands in exactly one of missing, invalid, or neither (valid). */
  lemma Partition(heap: Heap, obj: JsValue, required: seq<string>, name: string)
    requires WellFormed(heap) && Truthy(obj) && name in required
    ensures name in MissingOf(heap, obj, required) <==> GetValue(heap, obj, Named(name)) in {Undefined, Null}
    ensures name in InvalidOf(heap, obj, required) <==>
      GetValue(heap, obj, Named(name)) !in {Undefined, Null} && TypeOf(heap, GetValue(heap, obj, Named(name))) != "function"
    ensures !(name in MissingOf(heap, obj, required) && name in InvalidOf(heap, obj, required))
    ensures name !in MissingOf(heap, obj, required) && name !in InvalidOf(heap, obj, required) <==>
      TypeOf(heap, GetValue(heap, obj, Named(name))) == "function"
  {
    SelectedMembers(heap, obj, required, MissingMethod);
    SelectedMembers(heap, obj, required, InvalidMethod);
  }

  /** Both lists keep the order of the required names. */
  lemma ListsKeepOrder(heap: Heap, obj: JsValue, required: seq<string>)
    requires WellFormed(heap)
    ensures IsSubsequence(MissingOf(heap, obj, required), required)
    ensures IsSubsequence(InvalidOf(heap, obj, required), required)
  {
    SelectedIsSubsequence(heap, obj, required, MissingMethod);
    SelectedIsSubsequence(heap, obj, required, InvalidMethod);
    if !Truthy(obj) {
      SubsequenceOfSelf(required);
    }
  }

  lemma {:induction false} SubsequenceOfSelf(xs: seq<string>)
    ensures IsSubsequence(xs, xs)
    decreases |xs|
  {
    if xs != [] {
      SubsequenceOfSelf(xs[1..]);
    }
  }

  /** A present object passes exactly when every required name holds a function. */
  lemma ValidIffAllFunctions(heap: Heap, obj: JsValue, required: seq<string>)
    requires WellFormed(heap) && Truthy(obj)
    ensures MissingOf(heap, obj, required) == [] && InvalidOf(heap, obj, required) == [] <==>
      forall n :: n in required ==> TypeOf(heap, GetValue(heap, obj, Named(n))) == "function"
  {
    SelectedMembers(heap, obj, required, MissingMethod);
    SelectedMembers(heap, obj, required, InvalidMethod);
    if MissingOf(heap, obj, required) != [] {
      assert MissingOf(heap, obj, required)[0] in MissingOf(heap, obj, required);
    }
    if InvalidOf(heap, obj, required) != [] {
      assert InvalidOf(heap, obj, required)[0] in InvalidOf(heap, obj, required);
    }
  }

  // ---------------------------------------------------------------------------
  // getAllProperties
  // ---------------------------------------------------------------------------

  /** `sym.toString()`. */
  function SymbolText(description: string): (r: string)
    ensures r != [] && r[0] == 'S'
  {
    "Symbol(" + description + ")"
  }

  /** The own string keys the walk collects: all but 'constructor'. */
  function ListedNames(own: seq<Property>): (r: set<string>)
    ensures "constructor" !in r
    decreases |own|
  {
    if own == [] then {}
    else
      var p := own[|own| - 1];
      ListedNames(own[..|own| - 1]) + (if p.key.Named? && p.key.name != "constructor" then {p.key.name} else {})
  }

  /** The own symbols the walk collects, as text. */
  function ListedSymbols(own: seq<Property>): (r: set<string>)
    ensures "constructor" !in r
    decreases |own|
  {
    if own == [] then {}
    else
      var p := own[|own| - 1];
      ListedSymbols(own[..|own| - 1]) + (if p.key.Symbol? then {SymbolText(p.key.description)} else {})
  }

  /** Whether the walk goes on at this value: it stops at a falsy value and at `Object.prototype`. */
  predicate WalkContinues(v: JsValue) {
    Truthy(v) && v != Ref(ObjectPrototype)
  }

  /** Everything the walk collects from `v` up to (not including) `Object.prototype`. */
  function ChainNames(heap: Heap, v: JsValue): (r: set<string>)
    requires WellFormed(heap)
    ensures "constructor" !in r
    decreases if v.Ref? then v.id + 2 else if Truthy(v) then 1 else 0
  {
    if !WalkContinues(v) then {}
    else
      var own := OwnProperties(heap, v);
      ListedNames(own) + ListedSymbols(own) + ChainNames(heap, PrototypeOf(heap, v))
  }

  /** `Set.prototype.add` on a set kept in insertion order. */
  function AddToSet(xs: seq<string>, x: string): (r: seq<string>)
    ensures Distinct(xs) ==> Distinct(r)
    ensures forall y :: y in r <==> y in xs || y == x
  {
    if x in xs then xs else xs + [x]
  }

  function Elements(xs: seq<string>): set<string> {
    set x | x in xs
  }

  lemma ElementsAdd(xs: seq<string>, x: string)
    ensures Elements(AddToSet(xs, x)) == Elements(xs) + {x}
  {
  }

  /** `Object.getOwnPropertyNames(current).forEach(...)`: every name but 'constructor' is added. */
  method AddNames(properties: seq<string>, own: seq<Property>) returns (r: seq<string>)
    requires Distinct(properties)
    ensures Distinct(r) && Elements(r) == Elements(properties) + ListedNames(own)
  {
    r := properties;
    for i := 0 to |own|
      invariant Distinct(r)
      invariant Elements(r) == Elements(properties) + ListedNames(own[..i])
    {
      assert own[..i + 1][..i] == own[..i] && own[..i + 1][i] == own[i];
      if own[i].key.Named? && own[i].key.name != "constructor" {
        ElementsAdd(r, own[i].key.name);
        r := AddToSet(r, own[i].key.name);
      }
    }
    assert own[..|own|] == own;
  }

  /** `Object.getOwnPropertySymbols(current).forEach(...)`: every symbol is added as text. */
  method AddSymbols(properties: seq<string>, own: seq<Property>) returns (r: seq<string>)
    requires Distinct(properties)
    ensures Distinct(r) && Elements(r) == Elements(properties) + ListedSymbols(own)
  {
    r := properties;
    for i := 0 to |own|
      invariant Distinct(r)
      invariant Elements(r) == Elements(properties) + ListedSymbols(own[..i])
    {
      assert own[..i + 1][..i] == own[..i] && own[..i + 1][i] == own[i];
      if own[i].key.Symbol? {
        ElementsAdd(r, SymbolText(own[i].key.description));
        r := AddToSet(r, SymbolText(own[i].key.description));
      }
    }
    assert own[..|own|] == own;
  }

  /** The sorted, repetition-free list of the names on the prototype chain, 'constructor' left out. */
  method GetAllProperties(heap: Heap, obj: JsValue) returns (r: seq<string>)
    requires WellFormed(heap)
    ensures SortedStrings(r) && Distinct(r)
    ensures forall p :: p in r <==> p in ChainNames(heap, obj)
    ensures "constructor" !in r
  {
    var properties: seq<string> := [];
    var current := obj;
    while WalkContinues(current)
      invariant Distinct(properties)
      invariant Elements(properties) + ChainNames(heap, current) == ChainNames(heap, obj)
      decreases if current.Ref? then current.id + 2 else if Truthy(current) then 1 else 0
    {
      var own := OwnProperties(heap, current);
      properties := AddNames(properties, own);
      properties := AddSymbols(properties, own);
      current := PrototypeOf(heap, current);
    }
    r := SortStrings(properties);
    assert forall p :: p in r <==> p in multiset(properties);
  }

  // ---------------------------------------------------------------------------
  // validateMethods
  // ---------------------------------------------------------------------------

  datatype DebugInfo = DebugInfo(objectType: string, availableProperties: seq<string>, methodTypes: map<string, string>)

  datatype ValidationResult = ValidationResult(
    isValid: bool,
    missingMethods: seq<string>,
    invalidMethods: seq<string>,
    debugInfo: DebugInfo)

  /** `obj.constructor?.name || typeof obj`, for a non-empty string name. */
  function ObjectType(heap: Heap, obj: JsValue): string
    requires WellFormed(heap)
  {
    var ctor := GetValue(heap, obj, Named("constructor"));
    if ctor == Undefined || ctor == Null then TypeOf(heap, obj)
    else match GetValue(heap, ctor, Named("name"))
      case Str(name) => if name != "" then name else TypeOf(heap, obj)
      case _ => TypeOf(heap, obj)
  }

  /** The loop over the required names: the missing and the invalid ones in order, and the type of each. */
  method InspectRequired(heap: Heap, obj: JsValue, required: seq<string>)
    returns (missingMethods: seq<string>, invalidMethods: seq<string>, methodTypes: map<string, string>)
    requires WellFormed(heap)
    ensures missingMethods == Selected(heap, obj, required, MissingMethod)
    ensures invalidMethods == Selected(heap, obj, required, InvalidMethod)
    ensures forall n :: n in methodTypes <==> n in required
    ensures forall n :: n in methodTypes ==> methodTypes[n] == TypeOf(heap, GetValue(heap, obj, Named(n)))
  {
    missingMethods, invalidMethods, methodTypes := [], [], map[];
    for i := 0 to |required|
      invariant missingMethods == Selected(heap, obj, required[..i], MissingMethod)
      invariant invalidMethods == Selected(heap, obj, required[..i], InvalidMethod)
      invariant forall n :: n in methodTypes <==> n in required[..i]
      invariant forall n :: n in methodTypes ==> methodTypes[n] == TypeOf(heap, GetValue(heap, obj, Named(n)))
    {
      var methodName := required[i];
      SelectedStep(heap, obj, required, i, MissingMethod);
      SelectedStep(heap, obj, required, i, InvalidMethod);
      var member := GetValue(heap, obj, Named(methodName));
      var methodType := TypeOf(heap, member);
      methodTypes := methodTypes[methodName := methodType];
      if member == Undefined || member == Null {
        assert VerdictOf(heap, obj, methodName) == MissingMethod;
        missingMethods := missingMethods + [methodName];
      } else if methodType != "function" {
        assert VerdictOf(heap, obj, methodName) == InvalidMethod;
        invalidMethods := invalidMethods + [methodName];
      } else {
        assert VerdictOf(heap, obj, methodName) == ValidMethod;
      }
    }
    assert required[..|required|] == required;
  }

  /** One more name examined: selected after the earlier ones exactly when its verdict matches. */
  lemma SelectedStep(heap: Heap, obj: JsValue, names: seq<string>, i: nat, verdict: Verdict)
    requires WellFormed(heap) && i < |names|
    ensures VerdictOf(heap, obj, names[i]) == verdict ==>
      Selected(heap, obj, names[..i + 1], verdict) == Selected(heap, obj, names[..i], verdict) + [names[i]]
    ensures VerdictOf(heap, obj, names[i]) != verdict ==>
      Selected(heap, obj, names[..i + 1], verdict) == Selected(heap, obj, names[..i], verdict)
    ensures forall n :: n in names[..i + 1] <==> n in names[..i] || n == names[i]
  {
    assert names[..i + 1][..i] == names[..i];
    assert names[..i + 1] == names[..i] + [names[i]];
    var rest := Selected(heap, obj, names[..i], verdict);
    assert rest + [] == rest;
  }

  method ValidateMethods(heap: Heap, obj: JsValue, required: seq<string>, objectName: string) returns (r: ValidationResult)
    requires WellFormed(heap)
    ensures !Truthy(obj) ==> r == ValidationResult(false, required, [], DebugInfo("null/undefined", [], map[]))
    ensures r.missingMethods == MissingOf(heap, obj, required)
    ensures r.invalidMethods == InvalidOf(heap, obj, required)
    ensures Truthy(obj) ==> (r.isValid <==> r.missingMethods == [] && r.invalidMethods == [])
    ensures Truthy(obj) ==> r.debugInfo.objectType == ObjectType(heap, obj)
    ensures Truthy(obj) ==> SortedStrings(r.debugInfo.availableProperties) && Distinct(r.debugInfo.availableProperties)
    ensures Truthy(obj) ==> forall p :: p in r.debugInfo.availableProperties <==> p in ChainNames(heap, obj)
    ensures forall n :: n in r.debugInfo.methodTypes <==> Truthy(obj) && n in required
    ensures forall n :: n in r.debugInfo.methodTypes ==>
      r.debugInfo.methodTypes[n] == TypeOf(heap, GetValue(heap, obj, Named(n)))
  {
    if !Truthy(obj) {
      return ValidationResult(false, required, [], DebugInfo("null/undefined", [], map[]));
    }
    var availableProperties := GetAllProperties(heap, obj);
    var missingMethods, invalidMethods, methodTypes := InspectRequired(heap, obj, required);
    var isValid := |missingMethods| == 0 && |invalidMethods| == 0;
    r := ValidationResult(isValid, missingMethods, invalidMethods,
                          DebugInfo(ObjectType(heap, obj), availableProperties, methodTypes));
  }

  // ---------------------------------------------------------------------------
  // createSafeWrapper
  // ---------------------------------------------------------------------------

  /** The error a failed validation raises. */
  function SafeWrapperFailure(objectName: string, missing: seq<string>, invalid: seq<string>): string {
    "Safe wrapper creation failed for " + objectName + ": "
      + "Missing: [" + Join(missing, ", ") + "], "
      + "Invalid: [" + Join(invalid, ", ") + "]"
  }

  /** The proxy: the target, the monitored names, and the name used in messages. */
  datatype SafeWrapper = SafeWrapper(target: JsValue, monitored: seq<string>, objectName: string)

  /** What reading a property through the proxy gives: the plain value, or a logging function around it. */
  datatype Access = Plain(value: JsValue) | Logged(wrapped: JsValue)

  /** The proxy's `get` trap. */
  function WrapperGet(heap: Heap, w: SafeWrapper, key: PropKey): (r: Result<Access, string>)
    requires WellFormed(heap)
    ensures !(key.Named? && key.name in w.monitored) ==> r == Ok(Plain(GetValue(heap, w.target, key)))
    ensures key.Named? && key.name in w.monitored ==>
      (r.Err? <==> TypeOf(heap, GetValue(heap, w.target, key)) != "function")
    ensures key.Named? && key.name in w.monitored && r.Err? ==>
      r.error == "Method " + key.name + " on " + w.objectName + " is not a function (type: "
                 + TypeOf(heap, GetValue(heap, w.target, key)) + ")"
    ensures key.Named? && key.name in w.monitored && r.Ok? ==> r == Ok(Logged(GetValue(heap, w.target, key)))
  {
    var value := GetValue(heap, w.target, key);
    if key.Named? && key.name in w.monitored then
      if TypeOf(heap, value) != "function" then
        Err("Method " + key.name + " on " + w.objectName + " is not a function (type: " + TypeOf(heap, value) + ")")
      else Ok(Logged(value))
    else Ok(Plain(value))
  }

  /** A truthy primitive has no members, so it passes validation only when nothing is required. */
  lemma PrimitivePassesOnlyEmpty(heap: Heap, obj: JsValue, required: seq<string>)
    requires WellFormed(heap) && Truthy(obj) && !obj.Ref?
    requires MissingOf(heap, obj, required) == [] && InvalidOf(heap, obj, required) == []
    ensures required == []
  {
    ValidIffAllFunctions(heap, obj, required);
    assert forall n :: n !in required;
  }

  /**
   * Why `createSafeWrapper` throws: the validation failed, or the validated
   * value is not an object, so `new Proxy` raises a `TypeError`.
   */
  datatype WrapperError = ValidationFailed(message: string) | ProxyTypeError

  method CreateSafeWrapper(heap: Heap, obj: JsValue, methodNames: seq<string>, objectName: string)
    returns (r: Result<SafeWrapper, WrapperError>)
    requires WellFormed(heap)
    ensures r.Err? <==> !Truthy(obj) || MissingOf(heap, obj, methodNames) != [] || InvalidOf(heap, obj, methodNames) != []
                        || !obj.Ref?
    ensures (!Truthy(obj) || MissingOf(heap, obj, methodNames) != [] || InvalidOf(heap, obj, methodNames) != []) ==>
      r == Err(ValidationFailed(SafeWrapperFailure(objectName, MissingOf(heap, obj, methodNames), InvalidOf(heap, obj, methodNames))))
    ensures r.Err? && r.error.ProxyTypeError? ==> Truthy(obj) && !obj.Ref? && methodNames == []
    ensures r.Ok? ==> r.value == SafeWrapper(obj, methodNames, objectName) && obj.Ref?
  {
    var validation := ValidateMethods(heap, obj, methodNames, objectName);
    if !validation.isValid {
      return Err(ValidationFailed(SafeWrapperFailure(objectName, validation.missingMethods, validation.invalidMethods)));
    }
    if !obj.Ref? {
      PrimitivePassesOnlyEmpty(heap, obj, methodNames);
      return Err(ProxyTypeError);
    }
    r := Ok(SafeWrapper(obj, methodNames, objectName));
  }

  /**
   * On the heap it was validated against, the wrapper hands out every
   * monitored method wrapped, and every other property unchanged.
   */
  lemma WrapperOnValidatedObject(heap: Heap, obj: JsValue, methodNames: seq<string>, objectName: string, key: PropKey)
    requires WellFormed(heap) && Truthy(obj)
    requires MissingOf(heap, obj, methodNames) == [] && InvalidOf(heap, obj, methodNames) == []
    ensures key.Named? && key.name in methodNames ==>
      WrapperGet(heap, SafeWrapper(obj, methodNames, objectName), key) == Ok(Logged(GetValue(heap, obj, key)))
    ensures !(key.Named? && key.name in methodNames) ==>
      WrapperGet(heap, SafeWrapper(obj, methodNames, objectName), key) == Ok(Plain(GetValue(heap, obj, key)))
  {
    ValidIffAllFunctions(heap, obj, methodNames);
  }
}
