/**
 * The cargo step of the chat-bot build (wb-bot-vite/src/components/calculator-steps/CargoTypeStep.jsx):
 * its validator, the derivation of the older scalar fields (`cargoType`, `boxCount`,
 * `containerType`, ...) from the selection lists, and the checkbox, radio and text handlers.
 * The step keeps the custom box size, the custom pallet weight and its error map locally.
 */
module CargoStep {
  import opened Wrappers
  import opened Js
  import opened Form

  // ---------------------------------------------------------------- error keys and messages

  const TypesError := "selectedTypes"
  const BoxSizeError := "boxSize"
  const CustomBoxError := "customBoxSize"
  const PalletWeightError := "palletWeight"
  const CustomWeightError := "customPalletWeight"
  const QuantityPrefix := "quantity_"

  const TypesMessage := "Выберите хотя бы один тип груза"
  const QuantityMessage := "Количество должно быть не менее 1"
  const BoxSizeMessage := "Выберите размер коробки"
  const CustomBoxMessage := "Все размеры коробки должны быть не менее 1 см"
  const PalletWeightMessage := "Выберите вес паллеты"
  const CustomWeightMessage := "Вес паллеты должен быть от 500 до 1000 кг"

  /** `quantity_${kind}`: one key per kind, and no kind's key is one of the fixed keys. */
  function QuantityKey(kind: string): (k: string)
    ensures |k| == |QuantityPrefix| + |kind| && k[..|QuantityPrefix|] == QuantityPrefix
    ensures k[|QuantityPrefix|..] == kind
    ensures !IsFixedKey(k)
  {
    assert (QuantityPrefix + kind)[0] == 'q';
    QuantityPrefix + kind
  }

  predicate IsFixedKey(k: string) {
    k == TypesError || k == BoxSizeError || k == CustomBoxError || k == PalletWeightError || k == CustomWeightError
  }

  predicate IsQuantityKey(k: string) {
    |k| >= |QuantityPrefix| && k[..|QuantityPrefix|] == QuantityPrefix
  }

  lemma FixedKeysAreNotQuantityKeys()
    ensures !IsQuantityKey(TypesError) && !IsQuantityKey(BoxSizeError) && !IsQuantityKey(CustomBoxError)
    ensures !IsQuantityKey(PalletWeightError) && !IsQuantityKey(CustomWeightError)
  {
    assert TypesError[0] != 'q' && BoxSizeError[0] != 'q' && CustomBoxError[0] != 'q';
    assert PalletWeightError[0] != 'q' && CustomWeightError[0] != 'q';
  }

  /** The message `validate` stores under each key. */
  function Message(k: string): string {
    if k == TypesError then TypesMessage
    else if k == BoxSizeError then BoxSizeMessage
    else if k == CustomBoxError then CustomBoxMessage
    else if k == PalletWeightError then PalletWeightMessage
    else if k == CustomWeightError then CustomWeightMessage
    else QuantityMessage
  }

  // ---------------------------------------------------------------- the individual checks

  /** `!quantities?.[kind] || quantities[kind] < 1`. */
  predicate QuantityBad(q: Quantities, kind: string) {
    !QuantityTruthy(q, kind) || q[kind].value < 1
  }

  /** `parseFloat(x) < bound`; false for `NaN`. */
  predicate Below(pf: FloatParser, x: string, bound: real) {
    pf(x).Some? && pf(x).value < bound
  }

  /** `parseFloat(x) > bound`; false for `NaN`. */
  predicate Above(pf: FloatParser, x: string, bound: real) {
    pf(x).Some? && pf(x).value > bound
  }

  /** A custom box that `validate` rejects: a dimension left empty, or read by `parseFloat` as
      below 1 cm. A non-empty dimension `parseFloat` cannot read (`NaN`) passes. */
  predicate DimsBad(c: BoxDims, pf: FloatParser) {
    || c.length == "" || c.width == "" || c.height == ""
    || Below(pf, c.length, 1.0) || Below(pf, c.width, 1.0) || Below(pf, c.height, 1.0)
  }

  /** A custom pallet weight that `validate` rejects: empty, or read by `parseFloat` as below
      500 or above 1000 kg. A non-empty weight `parseFloat` cannot read (`NaN`) passes. */
  predicate WeightBad(w: string, pf: FloatParser) {
    w == "" || Below(pf, w, 500.0) || Above(pf, w, 1000.0)
  }

  /** Both comparisons are false for `NaN`, so non-numeric text is not a bad weight. */
  lemma NonNumericWeightPasses(w: string, pf: FloatParser)
    requires w != "" && pf(w).None?
    ensures !WeightBad(w, pf)
  {
  }

  /** Likewise for the custom box: non-empty dimensions `parseFloat` cannot read pass. */
  lemma NonNumericDimensionsPass(c: BoxDims, pf: FloatParser)
    requires c.length != "" && c.width != "" && c.height != ""
    requires pf(c.length).None? && pf(c.width).None? && pf(c.height).None?
    ensures !DimsBad(c, pf)
  {
  }

  /** The first two checks: a kind is selected, and each selected kind has a quantity. */
  ghost predicate KindErrorsFor(f: FormData, errs: map<string, string>) {
    && (TypesError in errs <==> f.selectedTypes == [])
    && (forall t :: QuantityKey(t) in errs <==> t in f.selectedTypes && QuantityBad(f.quantities, t))
  }

  /** The box checks: a size is chosen, and a chosen "other size" is filled in. */
  ghost predicate BoxErrorsFor(f: FormData, c: BoxDims, pf: FloatParser, errs: map<string, string>) {
    && (BoxSizeError in errs <==> BoxKind in f.selectedTypes && f.selectedBoxSizes == [])
    && (CustomBoxError in errs <==>
          BoxKind in f.selectedTypes && f.selectedBoxSizes != [] && OtherSize in f.selectedBoxSizes && DimsBad(c, pf))
  }

  /** The pallet checks: a weight class is chosen, and a chosen "other weight" is in range. */
  ghost predicate PalletErrorsFor(f: FormData, w: string, pf: FloatParser, errs: map<string, string>) {
    && (PalletWeightError in errs <==> PalletKind in f.selectedTypes && f.selectedPalletWeights == [])
    && (CustomWeightError in errs <==>
          PalletKind in f.selectedTypes && f.selectedPalletWeights != [] && OtherWeight in f.selectedPalletWeights
          && WeightBad(w, pf))
  }

  /** Every recorded key is one of the checks' keys and carries that check's message. */
  ghost predicate OnlyCheckKeys(errs: map<string, string>) {
    forall k :: k in errs ==> (IsFixedKey(k) || IsQuantityKey(k)) && errs[k] == Message(k)
  }

  /** The error map of `validate`, key by key: each key is present exactly when its check
      fails, carries that check's message, and nothing else is recorded. */
  ghost predicate ErrorsFor(f: FormData, c: BoxDims, w: string, pf: FloatParser, errs: map<string, string>) {
    KindErrorsFor(f, errs) && BoxErrorsFor(f, c, pf, errs) && PalletErrorsFor(f, w, pf, errs) && OnlyCheckKeys(errs)
  }

  /** Recording a fixed key leaves the quantity keys as they were. */
  lemma RecordFixedKey(errs: map<string, string>, k: string)
    requires IsFixedKey(k)
    ensures forall t :: QuantityKey(t) in errs[k := Message(k)] <==> QuantityKey(t) in errs
  {
  }

  /** The step's rule stated on its own: some kind is selected, every selected kind has a
      quantity of at least 1, a selected box has a size (and, when "other" is chosen, custom
      dimensions that are non-empty and not read as below 1 cm), a selected pallet has a weight
      class (and, when "other" is chosen, a custom weight that is non-empty and not read as
      below 500 or above 1000 kg; text `parseFloat` cannot read passes). */
  predicate CargoValid(f: FormData, c: BoxDims, w: string, pf: FloatParser) {
    && f.selectedTypes != []
    && (forall t :: t in f.selectedTypes ==> !QuantityBad(f.quantities, t))
    && (BoxKind in f.selectedTypes ==>
          f.selectedBoxSizes != [] && (OtherSize in f.selectedBoxSizes ==> !DimsBad(c, pf)))
    && (PalletKind in f.selectedTypes ==>
          f.selectedPalletWeights != [] && (OtherWeight in f.selectedPalletWeights ==> !WeightBad(w, pf)))
  }

  lemma QuantityKeyOf(k: string)
    requires IsQuantityKey(k)
    ensures k == QuantityKey(k[|QuantityPrefix|..])
  {
    assert k == k[..|QuantityPrefix|] + k[|QuantityPrefix|..];
  }

  /** `validate` returns true (an empty error map) exactly when the rule holds. */
  lemma ErrorsForIffValid(f: FormData, c: BoxDims, w: string, pf: FloatParser, errs: map<string, string>)
    requires ErrorsFor(f, c, w, pf, errs)
    ensures errs == map[] <==> CargoValid(f, c, w, pf)
  {
    if errs == map[] {
      forall t | t in f.selectedTypes ensures !QuantityBad(f.quantities, t) {
        assert QuantityKey(t) !in errs;
      }
    } else {
      var k :| k in errs;
      if !IsFixedKey(k) {
        QuantityKeyOf(k);
        var t := k[|QuantityPrefix|..];
        assert QuantityKey(t) in errs;
      }
    }
  }

  /** The key-by-key description leaves no freedom: it determines the error map. */
  lemma ErrorsForUnique(f: FormData, c: BoxDims, w: string, pf: FloatParser, e1: map<string, string>, e2: map<string, string>)
    requires ErrorsFor(f, c, w, pf, e1) && ErrorsFor(f, c, w, pf, e2)
    ensures e1 == e2
  {
    forall k ensures k in e1 <==> k in e2 {
      if (k in e1 || k in e2) && !IsFixedKey(k) {
        QuantityKeyOf(k);
        var t := k[|QuantityPrefix|..];
        assert QuantityKey(t) in e1 <==> QuantityKey(t) in e2;
      }
    }
  }

  // ---------------------------------------------------------------- the derived scalar fields

  predicate BoxChosen(f: FormData) {
    BoxKind in f.selectedTypes && f.selectedBoxSizes != []
  }

  predicate PalletChosen(f: FormData) {
    PalletKind in f.selectedTypes && f.selectedPalletWeights != []
  }

  /** `quantities[kind] && quantities[kind] >= 1`. */
  predicate CountReady(q: Quantities, kind: string) {
    QuantityTruthy(q, kind) && q[kind].value >= 1
  }

  /** The custom weight the derivation accepts: non-empty and within 1..1000 kg. */
  predicate WeightDerivable(w: string, pf: FloatParser) {
    w != "" && pf(w).Some? && 1.0 <= pf(w).value <= 1000.0
  }

  /** The container type the box branch writes, if it runs. */
  function BoxContainer(f: FormData): Option<string> {
    if !BoxChosen(f) then None
    else if OtherSize in f.selectedBoxSizes then Some("")
    else Some(f.selectedBoxSizes[0])
  }

  function BoxDimension(f: FormData, custom: string): Option<string> {
    if !BoxChosen(f) then None
    else if OtherSize in f.selectedBoxSizes then Some(custom)
    else Some("")
  }

  /** The update `updateDerivedValues` computes, field by field. The pallet branch runs after
      the box branch, so a pallet choice overrides the container type a box choice wrote. */
  function Derivation(f: FormData, c: BoxDims, w: string, pf: FloatParser): (d: FormPatch)
    ensures d.(cargoType := None, boxCount := None, palletCount := None, containerType := None,
               length := None, width := None, height := None, weight := None) == NoChange
  {
    var types := f.selectedTypes;
    NoChange.(
      cargoType :=
        if BoxKind in types then Some("box") else if PalletKind in types then Some("pallet") else None,
      boxCount :=
        if BoxKind in types && CountReady(f.quantities, BoxKind)
        then Some(NumberToString(f.quantities[BoxKind].value)) else None,
      palletCount :=
        if PalletKind in types && CountReady(f.quantities, PalletKind)
        then Some(NumberToString(f.quantities[PalletKind].value)) else None,
      containerType :=
        if !PalletChosen(f) then BoxContainer(f)
        else if OtherWeight !in f.selectedPalletWeights then Some(f.selectedPalletWeights[0])
        else if WeightDerivable(w, pf) then Some("")
        else BoxContainer(f),
      length := BoxDimension(f, c.length),
      width := BoxDimension(f, c.width),
      height := BoxDimension(f, c.height),
      weight :=
        if !PalletChosen(f) then None
        else if OtherWeight !in f.selectedPalletWeights then Some("")
        else if WeightDerivable(w, pf) then Some(w)
        else None)
  }

  /** `cargoType` follows the selection with box taking precedence: `'box'` whenever a box is
      selected, `'pallet'` only for pallets without a box, and untouched otherwise. */
  lemma CargoTypePrecedence(f: FormData, c: BoxDims, w: string, pf: FloatParser)
    ensures Derivation(f, c, w, pf).cargoType == Some("box") <==> BoxKind in f.selectedTypes
    ensures Derivation(f, c, w, pf).cargoType == Some("pallet") <==>
            PalletKind in f.selectedTypes && BoxKind !in f.selectedTypes
    ensures Derivation(f, c, w, pf).cargoType.None? <==>
            BoxKind !in f.selectedTypes && PalletKind !in f.selectedTypes
  {
  }

  /** The counts the derivation writes are decimal texts that read back (with `parseInt`) as the
      selected quantity, and only a quantity of at least 1 is written. */
  lemma DerivedCountsReadBack(f: FormData, c: BoxDims, w: string, pf: FloatParser)
    ensures var d := Derivation(f, c, w, pf);
            d.boxCount.Some? ==>
              (BoxKind in f.quantities && f.quantities[BoxKind].Some? &&
               f.quantities[BoxKind].value >= 1 && ParseInt(d.boxCount.value) == f.quantities[BoxKind])
    ensures var d := Derivation(f, c, w, pf);
            d.palletCount.Some? ==>
              (PalletKind in f.quantities && f.quantities[PalletKind].Some? &&
               f.quantities[PalletKind].value >= 1 && ParseInt(d.palletCount.value) == f.quantities[PalletKind])
  {
    if BoxKind in f.quantities && f.quantities[BoxKind].Some? {
      ParseOfNumberToString(f.quantities[BoxKind].value);
    }
    if PalletKind in f.quantities && f.quantities[PalletKind].Some? {
      ParseOfNumberToString(f.quantities[PalletKind].value);
    }
  }

  /** A custom pallet weight reaches the form, and clears the container type, only when it lies
      within 1..1000 kg. */
  lemma CustomWeightPropagation(f: FormData, c: BoxDims, w: string, pf: FloatParser)
    requires PalletChosen(f) && OtherWeight in f.selectedPalletWeights
    ensures Derivation(f, c, w, pf).weight == Some(w) <==> WeightDerivable(w, pf)
    ensures Derivation(f, c, w, pf).weight.None? <==> !WeightDerivable(w, pf)
    ensures WeightDerivable(w, pf) ==> Derivation(f, c, w, pf).containerType == Some("")
  {
  }

  /** The validator and the derivation disagree on the bounds of a custom pallet weight: a
      weight of 100 kg is written into the form although `validate` rejects it. */
  lemma WeightBoundsDisagree(f: FormData, c: BoxDims, w: string, pf: FloatParser)
    requires PalletChosen(f) && OtherWeight in f.selectedPalletWeights
    requires w != "" && pf(w) == Some(100.0)
    ensures Derivation(f, c, w, pf).weight == Some(w)
    ensures !CargoValid(f, c, w, pf)
  {
  }

  /** With a box and a pallet both chosen with standard sizes, the pallet's class wins the single
      `containerType` field. */
  lemma PalletOverridesContainerType(f: FormData, c: BoxDims, w: string, pf: FloatParser)
    requires BoxChosen(f) && PalletChosen(f)
    requires OtherWeight !in f.selectedPalletWeights
    ensures Derivation(f, c, w, pf).containerType == Some(f.selectedPalletWeights[0])
  {
  }

  /** The derivation reads only the selection lists and quantities, which it never writes: once
      merged, deriving again proposes the same update. */
  lemma DerivationStable(f: FormData, c: BoxDims, w: string, pf: FloatParser)
    ensures Derivation(Merge(f, Derivation(f, c, w, pf)), c, w, pf) == Derivation(f, c, w, pf)
  {
  }

  // ---------------------------------------------------------------- the pure handlers

  /** `handleChange(type)`: the checkbox rewrites `selectedTypes`, and nothing else. */
  function TypeToggled(f: FormData, kind: string, checked: bool): (p: FormPatch)
    ensures p.selectedTypes.Some? && p.(selectedTypes := None) == NoChange
    ensures checked ==> p.selectedTypes.value == f.selectedTypes + [kind]
    ensures !checked ==> forall t :: t in p.selectedTypes.value <==> t in f.selectedTypes && t != kind
    ensures !checked ==> p.selectedTypes.value == Without(f.selectedTypes, kind)
  {
    NoChange.(selectedTypes := Some(Toggled(f.selectedTypes, kind, checked)))
  }

  /** `handleQuantityChange(type)`: the kind's quantity becomes `parseInt(text, 10)`, every other
      kind keeps its quantity, and nothing else changes. */
  function QuantityChanged(f: FormData, kind: string, text: string): (p: FormPatch)
    ensures p.quantities.Some? && p.(quantities := None) == NoChange
    ensures kind in p.quantities.value && p.quantities.value[kind] == ParseInt10(text)
    ensures p.quantities.value.Keys == f.quantities.Keys + {kind}
    ensures forall t :: t in f.quantities && t != kind ==> p.quantities.value[t] == f.quantities[t]
  {
    NoChange.(quantities := Some(f.quantities[kind := ParseInt10(text)]))
  }

  /** A quantity typed as a decimal number is stored as that number. */
  lemma QuantityOfTypedNumber(f: FormData, kind: string, n: int)
    ensures QuantityChanged(f, kind, NumberToString(n)).quantities.value[kind] == Some(n)
  {
    ParseOfNumberToString(n);
  }

  /** The update `handleBoxSizeChange` emits for a choice of size, given the local custom size. */
  function BoxSizePatch(size: string, custom: BoxDims): (p: FormPatch)
    ensures p.(selectedBoxSizes := None, containerType := None, length := None, width := None,
               height := None) == NoChange
    ensures p.selectedBoxSizes == Some([size])
    ensures p.containerType == Some(if size == OtherSize then "" else size)
    ensures size != OtherSize ==> p.length == Some("") && p.width == Some("") && p.height == Some("")
  {
    if size != OtherSize then
      NoChange.(selectedBoxSizes := Some([size]), containerType := Some(size),
                length := Some(""), width := Some(""), height := Some(""))
    else
      NoChange.(selectedBoxSizes := Some([size]), containerType := Some(""),
                length := Some(custom.length), width := Some(custom.width), height := Some(custom.height))
  }

  /** The update `handlePalletWeightChange` emits for a choice of weight class. */
  function PalletWeightPatch(weight: string, custom: string): (p: FormPatch)
    ensures p.(selectedPalletWeights := None, containerType := None, weight := None) == NoChange
    ensures p.selectedPalletWeights == Some([weight])
    ensures p.containerType == Some(if weight == OtherWeight then "" else weight)
    ensures p.weight == Some(if weight == OtherWeight then custom else "")
  {
    if weight != OtherWeight then
      NoChange.(selectedPalletWeights := Some([weight]), containerType := Some(weight), weight := Some(""))
    else
      NoChange.(selectedPalletWeights := Some([weight]), containerType := Some(""), weight := Some(custom))
  }

  /** For a box-only selection, the size radio and the derivation agree: after the radio's update
      is merged, the derivation rewrites the box fields with the values they already have. */
  lemma BoxSizeChoiceAgreesWithDerivation(f: FormData, size: string, custom: BoxDims, w: string, pf: FloatParser)
    requires BoxKind in f.selectedTypes && PalletKind !in f.selectedTypes
    ensures var g := Merge(f, BoxSizePatch(size, custom));
            var d := Derivation(g, custom, w, pf);
            d.containerType == Some(g.containerType) && d.length == Some(g.length) &&
            d.width == Some(g.width) && d.height == Some(g.height)
  {
  }

  /** For a pallet-only selection, the weight radio and the derivation agree in the same way,
      provided a custom weight lies where the derivation accepts it; a custom weight outside
      1..1000 kg is left in the form as the radio wrote it. */
  lemma PalletWeightChoiceAgreesWithDerivation(f: FormData, weight: string, custom: string, pf: FloatParser)
    requires PalletKind in f.selectedTypes && BoxKind !in f.selectedTypes
    ensures var g := Merge(f, PalletWeightPatch(weight, custom));
            var d := Derivation(g, BoxDims("", "", ""), custom, pf);
            d.containerType.GetOr(g.containerType) == g.containerType && d.weight.GetOr(g.weight) == g.weight
  {
  }

  // ---------------------------------------------------------------- the component

  datatype DimField = LengthField | WidthField | HeightField

  class Step {
    var customBoxSize: BoxDims
    var customPalletWeight: string
    var errors: map<string, string>

    constructor ()
      ensures customBoxSize == BoxDims("", "", "") && customPalletWeight == "" && errors == map[]
    {
      customBoxSize := BoxDims("", "", "");
      customPalletWeight := "";
      errors := map[];
    }

    /** The body of `validate`: the error map for the form and the step's local values. */
    method CollectErrors(f: FormData, pf: FloatParser) returns (newErrors: map<string, string>)
      ensures ErrorsFor(f, customBoxSize, customPalletWeight, pf, newErrors)
    {
      newErrors := KindErrors(f);
      newErrors := AddBoxErrors(f, pf, newErrors);
      newErrors := AddPalletErrors(f, pf, newErrors);
    }

    /** The first two checks of `validate`: no kind selected, and each selected kind's quantity. */
    method KindErrors(f: FormData) returns (newErrors: map<string, string>)
      ensures KindErrorsFor(f, newErrors) && OnlyCheckKeys(newErrors)
      ensures BoxSizeError !in newErrors && CustomBoxError !in newErrors
      ensures PalletWeightError !in newErrors && CustomWeightError !in newErrors
    {
      FixedKeysAreNotQuantityKeys();
      newErrors := map[];
      if f.selectedTypes == [] {
        newErrors := newErrors[TypesError := TypesMessage];
      }
      var i := 0;
      while i < |f.selectedTypes|
        invariant 0 <= i <= |f.selectedTypes|
        invariant TypesError in newErrors <==> f.selectedTypes == []
        invariant forall t :: QuantityKey(t) in newErrors <==> t in f.selectedTypes[..i] && QuantityBad(f.quantities, t)
        invariant forall k :: k in newErrors ==> (k == TypesError || IsQuantityKey(k)) && newErrors[k] == Message(k)
      {
        var kind := f.selectedTypes[i];
        if QuantityBad(f.quantities, kind) {
          newErrors := newErrors[QuantityKey(kind) := QuantityMessage];
        }
        assert f.selectedTypes[..i + 1] == f.selectedTypes[..i] + [kind];
        i := i + 1;
      }
      assert f.selectedTypes[..i] == f.selectedTypes;
    }

    /** The box checks of `validate`, added to the map of the first two. */
    method AddBoxErrors(f: FormData, pf: FloatParser, errs: map<string, string>) returns (newErrors: map<string, string>)
      requires KindErrorsFor(f, errs) && OnlyCheckKeys(errs)
      requires BoxSizeError !in errs && CustomBoxError !in errs
      requires PalletWeightError !in errs && CustomWeightError !in errs
      ensures KindErrorsFor(f, newErrors) && BoxErrorsFor(f, customBoxSize, pf, newErrors) && OnlyCheckKeys(newErrors)
      ensures PalletWeightError !in newErrors && CustomWeightError !in newErrors
    {
      newErrors := errs;
      if BoxKind in f.selectedTypes {
        if f.selectedBoxSizes == [] {
          RecordFixedKey(newErrors, BoxSizeError);
          newErrors := newErrors[BoxSizeError := BoxSizeMessage];
        } else if OtherSize in f.selectedBoxSizes {
          if DimsBad(customBoxSize, pf) {
            RecordFixedKey(newErrors, CustomBoxError);
            newErrors := newErrors[CustomBoxError := CustomBoxMessage];
          }
        }
      }
    }

    /** The pallet checks of `validate`, added last. */
    method AddPalletErrors(f: FormData, pf: FloatParser, errs: map<string, string>) returns (newErrors: map<string, string>)
      requires KindErrorsFor(f, errs) && BoxErrorsFor(f, customBoxSize, pf, errs) && OnlyCheckKeys(errs)
      requires PalletWeightError !in errs && CustomWeightError !in errs
      ensures ErrorsFor(f, customBoxSize, customPalletWeight, pf, newErrors)
    {
      newErrors := errs;
      if PalletKind in f.selectedTypes {
        if f.selectedPalletWeights == [] {
          RecordFixedKey(newErrors, PalletWeightError);
          newErrors := newErrors[PalletWeightError := PalletWeightMessage];
        } else if OtherWeight in f.selectedPalletWeights {
          if WeightBad(customPalletWeight, pf) {
            RecordFixedKey(newErrors, CustomWeightError);
            newErrors := newErrors[CustomWeightError := CustomWeightMessage];
          }
        }
      }
    }

    /** `validate`: records the error map and returns whether the step's rule holds. */
    method Validate(f: FormData, pf: FloatParser) returns (isValid: bool)
      modifies this`errors
      ensures ErrorsFor(f, customBoxSize, customPalletWeight, pf, errors)
      ensures isValid <==> errors == map[]
      ensures isValid <==> CargoValid(f, customBoxSize, customPalletWeight, pf)
    {
      var newErrors := CollectErrors(f, pf);
      errors := newErrors;
      isValid := |newErrors| == 0;
      ErrorsForIffValid(f, customBoxSize, customPalletWeight, pf, errors);
    }

    /** `updateDerivedValues`: the update to hand to the form, or `None` when it would carry
        no key. */
    method UpdateDerivedValues(f: FormData, pf: FloatParser) returns (update: Option<FormPatch>)
      ensures var d := Derivation(f, customBoxSize, customPalletWeight, pf);
              update == if d == NoChange then None else Some(d)
    {
      var updatedValues := NoChange;
      if BoxKind in f.selectedTypes {
        updatedValues := updatedValues.(cargoType := Some("box"));
      } else if PalletKind in f.selectedTypes {
        updatedValues := updatedValues.(cargoType := Some("pallet"));
      }

      var i := 0;
      while i < |f.selectedTypes|
        invariant 0 <= i <= |f.selectedTypes|
        invariant updatedValues.(boxCount := None, palletCount := None) ==
                  Derivation(f, customBoxSize, customPalletWeight, pf).(
                    boxCount := None, palletCount := None, containerType := None,
                    length := None, width := None, height := None, weight := None)
        invariant updatedValues.boxCount ==
                  if BoxKind in f.selectedTypes[..i] && CountReady(f.quantities, BoxKind)
                  then Some(NumberToString(f.quantities[BoxKind].value)) else None
        invariant updatedValues.palletCount ==
                  if PalletKind in f.selectedTypes[..i] && CountReady(f.quantities, PalletKind)
                  then Some(NumberToString(f.quantities[PalletKind].value)) else None
      {
        var kind := f.selectedTypes[i];
        if CountReady(f.quantities, kind) {
          if kind == BoxKind {
            updatedValues := updatedValues.(boxCount := Some(NumberToString(f.quantities[kind].value)));
          } else if kind == PalletKind {
            updatedValues := updatedValues.(palletCount := Some(NumberToString(f.quantities[kind].value)));
          }
        }
        assert f.selectedTypes[..i + 1] == f.selectedTypes[..i] + [kind];
        i := i + 1;
      }
      assert f.selectedTypes[..i] == f.selectedTypes;

      if BoxKind in f.selectedTypes && f.selectedBoxSizes != [] {
        if OtherSize in f.selectedBoxSizes {
          updatedValues := updatedValues.(containerType := Some(""), length := Some(customBoxSize.length),
                                          width := Some(customBoxSize.width), height := Some(customBoxSize.height));
        } else {
          updatedValues := updatedValues.(containerType := Some(f.selectedBoxSizes[0]), length := Some(""),
                                          width := Some(""), height := Some(""));
        }
      }

      if PalletKind in f.selectedTypes && f.selectedPalletWeights != [] {
        if OtherWeight in f.selectedPalletWeights {
          if WeightDerivable(customPalletWeight, pf) {
            updatedValues := updatedValues.(weight := Some(customPalletWeight), containerType := Some(""));
          }
        } else {
          updatedValues := updatedValues.(containerType := Some(f.selectedPalletWeights[0]), weight := Some(""));
        }
      }

      if updatedValues != NoChange {
        update := Some(updatedValues);
      } else {
        update := None;
      }
    }

    /** `handleBoxSizeChange`: a standard size clears the local custom size and the form's
        dimensions and becomes the container type; "other size" sends the local custom size and
        an empty container type. */
    method HandleBoxSizeChange(size: string) returns (p: FormPatch)
      modifies this`customBoxSize
      ensures p == BoxSizePatch(size, old(customBoxSize))
      ensures p.selectedBoxSizes == Some([size])
      ensures p.containerType == Some(if size == OtherSize then "" else size)
      ensures customBoxSize == if size == OtherSize then old(customBoxSize) else BoxDims("", "", "")
      ensures p.length == Some(customBoxSize.length) && p.width == Some(customBoxSize.width) &&
              p.height == Some(customBoxSize.height)
    {
      if size != OtherSize {
        customBoxSize := BoxDims("", "", "");
        p := NoChange.(selectedBoxSizes := Some([size]), containerType := Some(size),
                       length := Some(""), width := Some(""), height := Some(""));
      } else {
        p := NoChange.(selectedBoxSizes := Some([size]), containerType := Some(""),
                       length := Some(customBoxSize.length), width := Some(customBoxSize.width),
                       height := Some(customBoxSize.height));
      }
    }

    /** `handlePalletWeightChange`: a standard class clears the local custom weight and the
        form's weight and becomes the container type; "other weight" sends the local custom
        weight and an empty container type. */
    method HandlePalletWeightChange(weight: string) returns (p: FormPatch)
      modifies this`customPalletWeight
      ensures p == PalletWeightPatch(weight, old(customPalletWeight))
      ensures p.selectedPalletWeights == Some([weight])
      ensures p.containerType == Some(if weight == OtherWeight then "" else weight)
      ensures customPalletWeight == if weight == OtherWeight then old(customPalletWeight) else ""
      ensures p.weight == Some(customPalletWeight)
    {
      if weight != OtherWeight {
        customPalletWeight := "";
        p := NoChange.(selectedPalletWeights := Some([weight]), containerType := Some(weight), weight := Some(""));
      } else {
        p := NoChange.(selectedPalletWeights := Some([weight]), containerType := Some(""),
                       weight := Some(customPalletWeight));
      }
    }

    /** `handleCustomBoxSizeChange(field)`: stores one typed dimension locally and sends all three
        with the first chosen box size as the container type. */
    method HandleCustomBoxSizeChange(f: FormData, field: DimField, value: string) returns (p: FormPatch)
      modifies this`customBoxSize
      ensures customBoxSize == match field
        case LengthField => old(customBoxSize).(length := value)
        case WidthField => old(customBoxSize).(width := value)
        case HeightField => old(customBoxSize).(height := value)
      ensures p == NoChange.(length := Some(customBoxSize.length), width := Some(customBoxSize.width),
                             height := Some(customBoxSize.height), containerType := Some(FirstOr(f.selectedBoxSizes)))
    {
      var newCustomSize := match field
        case LengthField => customBoxSize.(length := value)
        case WidthField => customBoxSize.(width := value)
        case HeightField => customBoxSize.(height := value);
      customBoxSize := newCustomSize;
      p := NoChange.(length := Some(newCustomSize.length), width := Some(newCustomSize.width),
                     height := Some(newCustomSize.height), containerType := Some(FirstOr(f.selectedBoxSizes)));
    }

    /** `handleCustomPalletWeightChange`: stores the typed weight locally and sends it with an
        empty container type. */
    method HandleCustomPalletWeightChange(value: string) returns (p: FormPatch)
      modifies this`customPalletWeight
      ensures customPalletWeight == value
      ensures p == NoChange.(weight := Some(value), containerType := Some(""))
    {
      customPalletWeight := value;
      p := NoChange.(weight := Some(value), containerType := Some(""));
    }
  }
}
