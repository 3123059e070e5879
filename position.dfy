/** Validation of a position parameter (civilwar/utils/position.py,
    `Position.api_validate`): a chain of checks whose first failure becomes an
    error response; a valid value yields no response at all. */
module PositionParam {
  import opened Common
  import opened Api

  /** `isinstance(v, (float, int))`; a bool is an int in Python. */
  predicate IsNumber(v: Value)
  {
    v.VInt? || v.VFloat? || v.VBool?
  }

  /** The first index at or after `from` whose component is not a number. */
  function FirstNonNumber(items: seq<Value>, from: nat): (r: Option<nat>)
    requires from <= |items|
    ensures r.Some? ==> from <= r.value < |items| && !IsNumber(items[r.value])
    ensures r.Some? ==> forall j :: from <= j < r.value ==> IsNumber(items[j])
    ensures r.None? ==> forall j :: from <= j < |items| ==> IsNumber(items[j])
    decreases |items| - from
  {
    if from == |items| then None
    else if !IsNumber(items[from]) then Some(from)
    else FirstNonNumber(items, from + 1)
  }

  /** The message naming the first component that is not a number. */
  function ComponentMessage(index: nat, comp: Value): string
  {
    "Expected value at tuple index " + NatToString(index) + " to be int or float, got: " + TypeName(comp)
  }

  /** The error response returned for a failed check, carrying `msg`. */
  function Failure(msg: string): (r: Option<Value>)
    ensures r.Some? && r.value == CreateError(msg) && MessageOf(r.value) == msg
  {
    ErrorMessageIsKept(msg);
    Some(CreateError(msg))
  }

  /** `Position.api_validate(game_controller, value)`: None when valid,
      otherwise the error response of the first check that fails. */
  function ApiValidate(value: Value): (r: Option<Value>)
    ensures r.None? <==> (value.VList? || value.VTuple?) && |value.items| == 2
                         && IsNumber(value.items[0]) && IsNumber(value.items[1])
    ensures r.Some? ==> r.value == CreateError(MessageOf(r.value))
  {
    var v := if value.VList? then VTuple(value.items) else value;
    if !v.VTuple? then
      Failure("Invalid type, required: tuple, got: " + TypeName(v))
    else if |v.items| != 2 then
      Failure("Expected a tuple of size 2, got " + NatToString(|v.items|))
    else
      match FirstNonNumber(v.items, 0)
      case Some(index) => Failure(ComponentMessage(index, v.items[index]))
      case None => None
  }

  /** A list is turned into a tuple before any check, so both validate alike. */
  lemma ListIsCheckedAsTuple(items: seq<Value>)
    ensures ApiValidate(VList(items)) == ApiValidate(VTuple(items))
  {
  }

  /** A value that is neither list nor tuple fails the type check. */
  lemma RejectsOtherTypes(value: Value)
    requires !value.VList? && !value.VTuple?
    ensures ApiValidate(value) == Some(CreateError("Invalid type, required: tuple, got: " + TypeName(value)))
  {
  }

  /** A sequence whose length is not 2 fails the size check. */
  lemma RejectsWrongSize(value: Value)
    requires value.VList? || value.VTuple?
    requires |value.items| != 2
    ensures ApiValidate(value) == Some(CreateError("Expected a tuple of size 2, got " + NatToString(|value.items|)))
  {
  }

  /** A pair whose first component is not a number is reported at index 0. */
  lemma RejectsFirstComponent(value: Value)
    requires value.VList? || value.VTuple?
    requires |value.items| == 2 && !IsNumber(value.items[0])
    ensures ApiValidate(value) == Some(CreateError(ComponentMessage(0, value.items[0])))
  {
  }

  /** A pair whose first component is a number but whose second is not is
      reported at index 1. */
  lemma RejectsSecondComponent(value: Value)
    requires value.VList? || value.VTuple?
    requires |value.items| == 2 && IsNumber(value.items[0]) && !IsNumber(value.items[1])
    ensures ApiValidate(value) == Some(CreateError(ComponentMessage(1, value.items[1])))
  {
  }

  /** Every failing check produces a response marked as unsuccessful. */
  lemma ErrorsAreFailures(value: Value)
    ensures ApiValidate(value).Some? ==>
      Lookup(ApiValidate(value).value.entries, "success") == Some(VBool(false))
  {
  }
}
