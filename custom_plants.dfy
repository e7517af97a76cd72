/** The non-storage logic of the plant catalog (src/data/customPlants.js): the field
    validator for a user-defined plant and the two synchronous lookups over the
    built-in table plus the in-memory cache of user-defined plants. */
module CustomPlants {
  import opened Common

  /** A catalog entry. The image (a URL, a Blob or a data URL) is not modelled. */
  datatype Plant = Plant(id: PlantId, name: string, description: string, plantType: string)

  /** `Array.prototype.findIndex(p => p.id === id)`: the first match, or -1. */
  function FindIndex(plants: seq<Plant>, id: PlantId): (k: int)
    ensures -1 <= k < |plants|
    ensures k >= 0 ==> plants[k].id == id
    ensures k >= 0 ==> forall j :: 0 <= j < k ==> plants[j].id != id
    ensures k == -1 ==> forall j :: 0 <= j < |plants| ==> plants[j].id != id
  {
    if plants == [] then -1
    else if plants[0].id == id then 0
    else
      var k := FindIndex(plants[1..], id);
      if k == -1 then -1 else k + 1
  }

  /** `Array.prototype.find(p => p.id === id)`, with `undefined` as None. */
  function FindById(plants: seq<Plant>, id: PlantId): Option<Plant> {
    var k := FindIndex(plants, id);
    if k == -1 then None else Some(plants[k])
  }

  lemma {:induction false} FindIndexAppend(a: seq<Plant>, b: seq<Plant>, id: PlantId)
    ensures FindIndex(a + b, id) ==
      if FindIndex(a, id) >= 0 then FindIndex(a, id)
      else if FindIndex(b, id) >= 0 then |a| + FindIndex(b, id)
      else -1
  {
    if a == [] {
      assert a + b == b;
    } else {
      assert (a + b)[1..] == a[1..] + b;
      FindIndexAppend(a[1..], b, id);
    }
  }

  lemma FindByIdAppend(a: seq<Plant>, b: seq<Plant>, id: PlantId)
    ensures FindById(a + b, id) == if FindById(a, id).Some? then FindById(a, id) else FindById(b, id)
  {
    FindIndexAppend(a, b, id);
    var kb := FindIndex(b, id);
    if FindIndex(a, id) == -1 && kb >= 0 {
      assert (a + b)[|a| + kb] == b[kb];
    }
  }

  /** The module-level cache `customPlantsCache` and its flag `isCacheLoaded`, which the
      asynchronous storage code outside this model assigns. */
  datatype CacheState = CacheState(customPlants: seq<Plant>, loaded: bool)

  /** `getAllPlantsSync`: the built-ins alone until the cache is loaded, then the
      built-ins followed by the cached user-defined plants. */
  function GetAllPlantsSync(builtins: seq<Plant>, cache: CacheState): (all: seq<Plant>)
    ensures !cache.loaded ==> all == builtins
    ensures cache.loaded ==> |all| == |builtins| + |cache.customPlants|
    ensures cache.loaded ==> all[..|builtins|] == builtins && all[|builtins|..] == cache.customPlants
  {
    if !cache.loaded then builtins else builtins + cache.customPlants
  }

  /** `getPlantByIdSync`: a built-in match first, else a cached match when the cache is
      loaded, else null. */
  function GetPlantByIdSync(builtins: seq<Plant>, cache: CacheState, id: PlantId): Option<Plant> {
    var builtin := FindById(builtins, id);
    if builtin.Some? then builtin
    else if !cache.loaded then None
    else FindById(cache.customPlants, id)
  }

  /** The lookup agrees with searching the visible list, and what it returns carries the
      requested id: a built-in shadows a user-defined plant with the same id. */
  lemma LookupAgreesWithList(builtins: seq<Plant>, cache: CacheState, id: PlantId)
    ensures GetPlantByIdSync(builtins, cache, id) == FindById(GetAllPlantsSync(builtins, cache), id)
    ensures GetPlantByIdSync(builtins, cache, id).Some? ==>
      GetPlantByIdSync(builtins, cache, id).value.id == id &&
      GetPlantByIdSync(builtins, cache, id).value in GetAllPlantsSync(builtins, cache)
    ensures GetPlantByIdSync(builtins, cache, id).None? <==>
      forall p :: p in GetAllPlantsSync(builtins, cache) ==> p.id != id
  {
    if cache.loaded {
      FindByIdAppend(builtins, cache.customPlants, id);
    }
    var all := GetAllPlantsSync(builtins, cache);
    var k := FindIndex(all, id);
    if k == -1 {
      forall p | p in all ensures p.id != id {
        var j :| 0 <= j < |all| && all[j] == p;
      }
    }
  }

  // ---------------------------------------------------------------------------
  // validatePlant

  /** A field of an untyped plant object: missing (null/undefined), a string, or some
      other value (a Blob, a number, ...) of the given JavaScript truthiness. */
  datatype JsField = Absent | Str(s: string) | NonString(truthy: bool)

  predicate Truthy(f: JsField) {
    match f
    case Absent => false
    case Str(s) => s != ""
    case NonString(t) => t
  }

  /** `!field || typeof field !== 'string'` is false exactly for a non-empty string. */
  predicate IsFilledString(f: JsField) {
    f.Str? && f.s != ""
  }

  datatype PlantRecord = PlantRecord(
    id: JsField, name: JsField, description: JsField, plantType: JsField,
    imageData: JsField, image: JsField)

  datatype PlantError = MissingId | MissingName | MissingDescription | MissingType | InvalidType | MissingImage

  function PlantErrorText(e: PlantError): string {
    match e
    case MissingId => "缺少有效的植物ID"
    case MissingName => "缺少植物名称"
    case MissingDescription => "缺少功能描述"
    case MissingType => "缺少植物类型"
    case InvalidType => "无效的植物类型"
    case MissingImage => "缺少植物图片"
  }

  const VALID_TYPES: seq<string> := ["shooter", "producer", "defense", "instant", "melee", "support"]

  function IdErrors(p: PlantRecord): seq<PlantError> {
    if IsFilledString(p.id) then [] else [MissingId]
  }

  function NameErrors(p: PlantRecord): seq<PlantError> {
    if IsFilledString(p.name) then [] else [MissingName]
  }

  function DescriptionErrors(p: PlantRecord): seq<PlantError> {
    if IsFilledString(p.description) then [] else [MissingDescription]
  }

  function TypeErrors(p: PlantRecord): seq<PlantError> {
    if !IsFilledString(p.plantType) then [MissingType]
    else if p.plantType.s !in VALID_TYPES then [InvalidType] else []
  }

  function ImageErrors(p: PlantRecord): seq<PlantError> {
    if !Truthy(p.imageData) && !Truthy(p.image) then [MissingImage] else []
  }

  /** The errors `validatePlant` collects, in the order it checks the fields. */
  function PlantErrors(p: PlantRecord): seq<PlantError> {
    IdErrors(p) + NameErrors(p) + DescriptionErrors(p) + TypeErrors(p) + ImageErrors(p)
  }

  /** `validatePlant`: pushes one error per failed check. */
  method ValidatePlant(p: PlantRecord) returns (valid: bool, errors: seq<PlantError>)
    ensures errors == PlantErrors(p)
    ensures valid <==> errors == []
  {
    errors := [];
    if !IsFilledString(p.id) {
      errors := errors + [MissingId];
    }
    assert errors == IdErrors(p);
    if !IsFilledString(p.name) {
      errors := errors + [MissingName];
    }
    assert errors == IdErrors(p) + NameErrors(p);
    if !IsFilledString(p.description) {
      errors := errors + [MissingDescription];
    }
    assert errors == IdErrors(p) + NameErrors(p) + DescriptionErrors(p);
    ghost var checked := errors;
    if !IsFilledString(p.plantType) {
      errors := errors + [MissingType];
    } else {
      if p.plantType.s !in VALID_TYPES {
        errors := errors + [InvalidType];
      }
    }
    assert errors == checked + TypeErrors(p);
    checked := errors;
    if !Truthy(p.imageData) && !Truthy(p.image) {
      errors := errors + [MissingImage];
    }
    assert errors == checked + ImageErrors(p);
    valid := |errors| == 0;
  }

  /** Each check contributes at most one error and the type check either "missing" or
      "invalid" but not both, so at most five errors arise. */
  lemma PlantErrorsBounded(p: PlantRecord)
    ensures |PlantErrors(p)| <= 5
    ensures !(MissingType in PlantErrors(p) && InvalidType in PlantErrors(p))
  {
  }

  /** Every error is reported exactly when its field fails its check. */
  lemma PlantErrorsExact(p: PlantRecord)
    ensures var e := PlantErrors(p);
      (MissingId in e <==> !IsFilledString(p.id)) &&
      (MissingName in e <==> !IsFilledString(p.name)) &&
      (MissingDescription in e <==> !IsFilledString(p.description)) &&
      (MissingType in e <==> !IsFilledString(p.plantType)) &&
      (InvalidType in e <==> IsFilledString(p.plantType) && p.plantType.s !in VALID_TYPES) &&
      (MissingImage in e <==> !Truthy(p.imageData) && !Truthy(p.image))
  {
    var a, b, c, d, f := IdErrors(p), NameErrors(p), DescriptionErrors(p), TypeErrors(p), ImageErrors(p);
    assert PlantErrors(p) == a + b + c + d + f;
    assert forall x :: x in PlantErrors(p) <==> x in a || x in b || x in c || x in d || x in f;
    assert forall x :: x in a ==> x == MissingId;
    assert forall x :: x in b ==> x == MissingName;
    assert forall x :: x in c ==> x == MissingDescription;
    assert forall x :: x in d ==> x == MissingType || x == InvalidType;
    assert forall x :: x in f ==> x == MissingImage;
  }

  /** A record with every field well formed passes; one that fails only a single
      check gets exactly that one error. */
  lemma PlantErrorsExamples()
    ensures PlantErrors(PlantRecord(Str("a"), Str("b"), Str("c"), Str("melee"), NonString(true), Absent)) == []
    ensures PlantErrors(PlantRecord(Str("a"), Str("b"), Str("c"), Absent, Absent, Str("x.png"))) == [MissingType]
    ensures PlantErrors(PlantRecord(Str("a"), Str("b"), Str("c"), Str("tank"), Absent, Str("x.png"))) == [InvalidType]
    ensures PlantErrors(PlantRecord(NonString(true), Str("b"), Str(""), Str("melee"), Absent, Absent)) ==
      [MissingId, MissingDescription, MissingImage]
  {
  }
}
