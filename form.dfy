/**
 * Client-side form validation: each input is checked against its kind and
 * value, and the `.form-group` around it is marked `error` or `success`; on
 * submit every input is checked and submission goes ahead only if all pass.
 * Number parsing is abstract: an input carries the result of `parseFloat`
 * and `parseInt` on its value, with `None` standing for NaN.
 */
module Form {
  import opened Wrappers

  /** The two status classes the validator toggles on a `.form-group` element. */
  class FormGroup {
    var error: bool
    var success: bool

    constructor(error: bool, success: bool)
      ensures this.error == error && this.success == success
    {
      this.error := error;
      this.success := success;
    }
  }

  /** A `.form-control` input element. */
  class Field {
    const required: bool
    /** The `type` attribute, such as "number" or "text". */
    const kind: string
    var value: string
    /** `parseFloat(value)`; `None` is NaN. */
    var asFloat: Option<real>
    /** `parseInt(value)`; `None` is NaN. */
    var asInt: Option<int>
    /** `closest('.form-group')`; `null` when the input has no such ancestor. */
    const group: FormGroup?

    /** The empty string parses to NaN either way. */
    ghost predicate Parsed()
      reads this
    {
      value == "" ==> asFloat.None? && asInt.None?
    }

    constructor(required: bool, kind: string, value: string, asFloat: Option<real>, asInt: Option<int>, group: FormGroup?)
      requires value == "" ==> asFloat.None? && asInt.None?
      ensures Parsed()
      ensures this.required == required && this.kind == kind && this.value == value
      ensures this.asFloat == asFloat && this.asInt == asInt && this.group == group
    {
      this.required := required;
      this.kind := kind;
      this.value := value;
      this.asFloat := asFloat;
      this.asInt := asInt;
      this.group := group;
    }
  }

  /** A parsed number that is not NaN and lies in [0, 100], both ends included. */
  predicate InRange(p: Option<real>)
  {
    p.Some? && 0.0 <= p.value <= 100.0
  }

  /**
   * The validation rule: a required input is not empty, and a number input
   * holds a number in range. So a number input that passes is never empty,
   * whether or not it is required, and any other input fails only when it is
   * required and empty.
   */
  predicate Acceptable(f: Field)
    reads f
    ensures f.kind == "number" && f.Parsed() && Acceptable(f) ==> f.value != ""
    ensures f.kind != "number" ==> (Acceptable(f) <==> !f.required || f.value != "")
  {
    && !(f.required && f.value == "")
    && (f.kind == "number" ==> InRange(f.asFloat))
  }

  /** Whether validation writes the group's classes: every case except an empty, optional, non-number input. */
  predicate Touches(f: Field)
    reads f
    ensures !Touches(f) ==> Acceptable(f) && f.value == ""
  {
    f.kind == "number" || f.value != "" || f.required
  }

  /** What `validateInput` returns: true for an input outside any group, otherwise the rule. */
  predicate Passes(f: Field)
    reads f
    ensures !Passes(f) ==> f.group != null && Touches(f)
  {
    f.group == null || Acceptable(f)
  }

  /** `validateInput`: checks one input and marks its group. */
  method ValidateInput(input: Field) returns (ok: bool)
    modifies input.group
    ensures ok == Passes(input)
    ensures input.group != null && Touches(input) ==>
              input.group.error == !ok && input.group.success == ok
    ensures input.group != null && !Touches(input) ==>
              input.group.error == old(input.group.error) && input.group.success == old(input.group.success)
    ensures !ok ==> input.group != null && input.group.error && !input.group.success
    ensures input.group != null ==>
              Marked(input.group, Mark(input), old(input.group.error), old(input.group.success))
  {
    var g := input.group;
    if g == null {
      return true;
    }
    ok := true;
    if input.required && input.value == "" {
      ok := false;
      g.error := true;
      g.success := false;
    } else if input.kind == "number" {
      var v := input.asFloat;
      if v.None? || v.value < 0.0 || v.value > 100.0 {
        ok := false;
        g.error := true;
        g.success := false;
      } else {
        g.error := false;
        g.success := true;
      }
    } else if input.value != "" {
      g.error := false;
      g.success := true;
    }
  }

  /** The mark validation leaves on the input's group: `Some(true)` for success, `Some(false)` for error. */
  function Mark(f: Field): Option<bool>
    reads f
  {
    if f.group != null && Touches(f) then Some(Acceptable(f)) else None
  }

  /** The mark left on group `g` by the last input in `fs` that marks it. */
  ghost function LastMark(g: FormGroup, fs: seq<Field>): Option<bool>
    reads fs
  {
    if fs == [] then None
    else
      var f := fs[|fs| - 1];
      if f.group == g && Mark(f).Some? then Mark(f) else LastMark(g, fs[..|fs| - 1])
  }

  /** The groups around the given inputs. */
  function Groups(fs: seq<Field>): set<FormGroup>
  {
    set i | 0 <= i < |fs| && fs[i].group != null :: fs[i].group
  }

  /** Group flags after a mark: a mark sets exactly one of the two classes; no mark leaves them. */
  ghost predicate Marked(g: FormGroup, m: Option<bool>, error: bool, success: bool)
    reads g
  {
    match m
    case None => g.error == error && g.success == success
    case Some(b) => g.error == !b && g.success == b
  }

  /**
   * The submit handler: validates every input, without stopping at the
   * first failure, and lets the submission proceed exactly when all pass.
   */
  method Submit(inputs: seq<Field>) returns (proceed: bool)
    modifies Groups(inputs)
    ensures proceed <==> forall i :: 0 <= i < |inputs| ==> Passes(inputs[i])
    ensures forall g :: g in Groups(inputs) ==> Marked(g, LastMark(g, inputs), old(g.error), old(g.success))
  {
    proceed := true;
    for i := 0 to |inputs|
      invariant proceed <==> forall j :: 0 <= j < i ==> Passes(inputs[j])
      invariant forall g :: g in Groups(inputs) ==> Marked(g, LastMark(g, inputs[..i]), old(g.error), old(g.success))
    {
      var input := inputs[i];
      var ok := ValidateInput(input);
      if !ok {
        proceed := false;
      }
      assert inputs[..i + 1][..i] == inputs[..i];
    }
    assert inputs[..|inputs|] == inputs;
  }

  /**
   * The cases of the rule, for an input whose parse results agree with its
   * value: an empty required input fails; a number input passes exactly when
   * it parses to a number in [0, 100] (so an empty optional number input
   * fails too); any other non-empty input passes; and an empty, optional,
   * non-number input passes without its group being touched.
   */
  lemma ValidationCases(f: Field)
    requires f.Parsed()
    ensures f.required && f.value == "" ==> !Acceptable(f) && Touches(f)
    ensures f.kind == "number" ==> (Acceptable(f) <==> InRange(f.asFloat))
    ensures f.kind == "number" && f.value == "" ==> !Acceptable(f)
    ensures f.kind != "number" && f.value != "" ==> Acceptable(f) && Touches(f)
    ensures f.kind != "number" && f.value == "" && !f.required ==> Acceptable(f) && !Touches(f)
    ensures !Acceptable(f) ==> Touches(f)
  {
  }

  /**
   * When exactly one input sits in group `g`, the group ends up with that
   * input's mark, whatever the inputs in other groups do.
   */
  lemma {:induction false} SoleInputMarksItsGroup(g: FormGroup, fs: seq<Field>, i: nat)
    requires i < |fs| && fs[i].group == g
    requires forall j :: 0 <= j < |fs| && j != i ==> fs[j].group != g
    ensures LastMark(g, fs) == Mark(fs[i])
  {
    var n := |fs| - 1;
    if i < n {
      SoleInputMarksItsGroup(g, fs[..n], i);
    } else {
      NoInputNoMark(g, fs[..n]);
    }
  }

  /** A group no input sits in receives no mark. */
  lemma {:induction false} NoInputNoMark(g: FormGroup, fs: seq<Field>)
    requires forall j :: 0 <= j < |fs| ==> fs[j].group != g
    ensures LastMark(g, fs) == None
  {
    if fs != [] {
      NoInputNoMark(g, fs[..|fs| - 1]);
    }
  }
}
