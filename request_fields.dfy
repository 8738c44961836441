/**
 * The field checks the request models of the HTTP routes share: pydantic's
 * length, range and choice constraints, which apply to the value as
 * submitted, and the validators that run after them, which strip strings
 * and drop blank list items.
 */
module RequestFields {
  import opened Wrappers
  import opened Text

  /** Why a field was rejected: one of pydantic's own constraints, or a validator's `ValueError` with its message. */
  datatype FieldError = Constraint | Invalid(message: string)

  /** `min_length` and, when there is one, `max_length`, checked on the submitted string. */
  predicate LengthWithin(v: string, minLen: nat, maxLen: Option<nat>)
  {
    minLen <= |v| && (maxLen.None? || |v| <= maxLen.value)
  }

  /**
   * A required text field: the length constraints on the submitted string,
   * then the validator that rejects a blank string and returns it stripped.
   */
  function RequiredText(v: string, minLen: nat, maxLen: Option<nat>, blank: string): (r: Result<string, FieldError>)
    ensures r.Ok? <==> LengthWithin(v, minLen, maxLen) && !IsBlank(v)
    ensures !LengthWithin(v, minLen, maxLen) ==> r == Err(Constraint)
    ensures LengthWithin(v, minLen, maxLen) && IsBlank(v) ==> r == Err(Invalid(blank))
    ensures r.Ok? ==> r.value == Strip(v) && r.value != []
    ensures r.Ok? ==> r.value[0] !in Whitespace && r.value[|r.value| - 1] !in Whitespace
  {
    if !LengthWithin(v, minLen, maxLen) then Err(Constraint)
    else if IsBlank(v) then Err(Invalid(blank))
    else Ok(Strip(v))
  }

  /** `ge=lo, le=hi`. */
  function InRange(v: int, lo: int, hi: int): (r: Result<int, FieldError>)
    ensures r.Ok? <==> lo <= v <= hi
    ensures r.Ok? ==> r.value == v
    ensures r.Err? ==> r.error == Constraint
  {
    if lo <= v <= hi then Ok(v) else Err(Constraint)
  }

  /** An optional number field with a default: an omitted value takes the default, a given one must lie in range. */
  function RangeOrDefault(v: Option<int>, default: int, lo: int, hi: int): (r: Result<int, FieldError>)
    ensures v.None? ==> r == Ok(default)
    ensures v.Some? ==> r == InRange(v.value, lo, hi)
  {
    if v.None? then Ok(default) else InRange(v.value, lo, hi)
  }

  /** A string restricted to a few exact choices (a `pattern="^(a|b)$"` constraint or a validator's `in` test). */
  function OneOf(v: string, choices: set<string>, error: FieldError): (r: Result<string, FieldError>)
    ensures r.Ok? <==> v in choices
    ensures r.Ok? ==> r.value == v
    ensures r.Err? ==> r.error == error
  {
    if v in choices then Ok(v) else Err(error)
  }

  /** `[item.strip() for item in v if item.strip()]`: the stripped items that are not blank, in order. */
  function CleanList(items: seq<string>): (r: seq<string>)
    ensures |r| <= |items|
    ensures forall i :: 0 <= i < |r| ==> r[i] != []
  {
    if items == [] then []
    else
      var rest := CleanList(items[..|items| - 1]);
      var last := items[|items| - 1];
      if IsBlank(last) then rest
      else rest + [Strip(last)]
  }

  /** Cleaning one more item appends it, stripped, unless it is blank. */
  lemma CleanListStep(items: seq<string>)
    requires items != []
    ensures CleanList(items) == CleanList(items[..|items| - 1]) + (if IsBlank(items[|items| - 1]) then [] else [Strip(items[|items| - 1])])
  {
  }

  /** Everything cleaning returns is a non-blank item, stripped: the `k`th result comes from item `i`. */
  lemma {:induction false} CleanedItemSource(items: seq<string>, k: nat) returns (i: nat)
    requires k < |CleanList(items)|
    ensures i < |items| && !IsBlank(items[i]) && CleanList(items)[k] == Strip(items[i])
  {
    CleanListStep(items);
    var init := items[..|items| - 1];
    if k < |CleanList(init)| {
      i := CleanedItemSource(init, k);
      assert items[i] == init[i];
    } else {
      i := |items| - 1;
    }
  }

  /** A non-blank item is kept, stripped. */
  lemma {:induction false} NonBlankItemKept(items: seq<string>, i: nat)
    requires i < |items| && !IsBlank(items[i])
    ensures Strip(items[i]) in CleanList(items)
  {
    CleanListStep(items);
    if i < |items| - 1 {
      var init := items[..|items| - 1];
      assert items[i] == init[i];
      NonBlankItemKept(init, i);
    }
  }

  /** Cleaning leaves nothing exactly when every item is blank. */
  lemma {:induction false} CleanListEmpty(items: seq<string>)
    ensures CleanList(items) == [] <==> forall i :: 0 <= i < |items| ==> IsBlank(items[i])
  {
    if items != [] {
      var init := items[..|items| - 1];
      CleanListEmpty(init);
      CleanListStep(items);
      assert forall i :: 0 <= i < |init| ==> init[i] == items[i];
    }
  }
}
