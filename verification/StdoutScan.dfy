/** Finding a fixed task's result in the Codex process output: the backwards scan over `{` and the
    nested search through wrapper fields of crates/codex-host-agent/src/lib.rs. */
module StdoutScan {
  import opened Prelude

  /** Wrapper fields in the order they are tried. */
  const WRAPPERS := ["fixed_task_output", "fixedTaskOutput", "template_output", "templateOutput", "result", "output"]

  predicate IsOutput(v: Json, templateId: string) {
    GetStr(v, "template_id") == Some(templateId)
  }

  /** `extract_fixed_task_output_value`. */
  function Extract(v: Json, templateId: string): Option<Json>
    decreases v, |WRAPPERS| + 1
  {
    if IsOutput(v, templateId) then Some(v) else ExtractFrom(v, templateId, 0)
  }

  /** The loop over the wrapper fields, from the `i`th on. */
  function ExtractFrom(v: Json, templateId: string, i: nat): Option<Json>
    requires i <= |WRAPPERS|
    decreases v, |WRAPPERS| - i
  {
    if i == |WRAPPERS| then None
    else match Get(v, WRAPPERS[i])
      case None => ExtractFrom(v, templateId, i + 1)
      case Some(nested) =>
        match Extract(nested, templateId)
        case None => ExtractFrom(v, templateId, i + 1)
        case found => found
  }

  // ----- Reference: positions reached through wrappers ---------------------------------------------

  /** A route is a sequence of wrapper numbers. */
  type Route = seq<nat>

  function At(v: Json, p: Route): Option<Json>
    decreases |p|
  {
    if p == [] then Some(v)
    else if p[0] >= |WRAPPERS| then None
    else match Get(v, WRAPPERS[p[0]])
      case None => None
      case Some(nested) => At(nested, p[1..])
  }

  /** The value at the end of the route is an output of the wanted template. */
  predicate Leads(v: Json, templateId: string, p: Route) {
    At(v, p).Some? && IsOutput(At(v, p).value, templateId)
  }

  /** Field-priority preorder: a value before anything inside it, earlier fields before later ones. */
  predicate NoLater(p: Route, q: Route)
    decreases |p|
  {
    p == [] || (q != [] && (p[0] < q[0] || (p[0] == q[0] && NoLater(p[1..], q[1..]))))
  }

  /** The search returns the value at the end of the first route, in preorder, that leads to an
      output; it returns nothing exactly when no route does. */
  lemma {:induction false} ExtractIsFirst(v: Json, templateId: string) returns (p: Route)
    ensures Extract(v, templateId).Some? ==>
              Leads(v, templateId, p) && At(v, p) == Extract(v, templateId)
    ensures Extract(v, templateId).Some? ==> forall q :: Leads(v, templateId, q) ==> NoLater(p, q)
    ensures Extract(v, templateId).None? ==> forall q :: !Leads(v, templateId, q)
    decreases v, |WRAPPERS| + 1
  {
    p := [];
    if !IsOutput(v, templateId) {
      p := ExtractFromIsFirst(v, templateId, 0);
      forall q | Leads(v, templateId, q) ensures q != [] {
      }
    }
  }

  lemma {:induction false} ExtractFromIsFirst(v: Json, templateId: string, i: nat) returns (p: Route)
    requires i <= |WRAPPERS|
    ensures ExtractFrom(v, templateId, i).Some? ==>
              p != [] && p[0] >= i && Leads(v, templateId, p) && At(v, p) == ExtractFrom(v, templateId, i)
    ensures ExtractFrom(v, templateId, i).Some? ==>
              forall q :: q != [] && q[0] >= i && Leads(v, templateId, q) ==> NoLater(p, q)
    ensures ExtractFrom(v, templateId, i).None? ==>
              forall q :: q != [] && q[0] >= i ==> !Leads(v, templateId, q)
    decreases v, |WRAPPERS| - i
  {
    p := [];
    if i < |WRAPPERS| {
      var field := Get(v, WRAPPERS[i]);
      if field.Some? && Extract(field.value, templateId).Some? {
        var inner := ExtractIsFirst(field.value, templateId);
        p := [i] + inner;
        assert p[1..] == inner;
        forall q | q != [] && q[0] >= i && Leads(v, templateId, q) ensures NoLater(p, q) {
          if q[0] == i { assert Leads(field.value, templateId, q[1..]); }
        }
      } else {
        if field.Some? { var _ := ExtractIsFirst(field.value, templateId); }
        p := ExtractFromIsFirst(v, templateId, i + 1);
        forall q | q != [] && q[0] == i ensures !Leads(v, templateId, q) {
          if field.Some? { assert !Leads(field.value, templateId, q[1..]); }
        }
      }
    }
  }

  /** Search in one wrapper field. */
  function Inner(v: Json, field: string, templateId: string): Option<Json> {
    match Get(v, field)
    case None => None
    case Some(nested) => Extract(nested, templateId)
  }

  function FirstFound(os: seq<Option<Json>>): Option<Json> {
    if os == [] then None else if os[0].Some? then os[0] else FirstFound(os[1..])
  }

  lemma {:induction false} FromIsFirstFound(v: Json, templateId: string, i: nat)
    requires i <= |WRAPPERS|
    ensures ExtractFrom(v, templateId, i) ==
            FirstFound(seq(|WRAPPERS| - i, k requires 0 <= k < |WRAPPERS| - i => Inner(v, WRAPPERS[i + k], templateId)))
    decreases |WRAPPERS| - i
  {
    var os := seq(|WRAPPERS| - i, k requires 0 <= k < |WRAPPERS| - i => Inner(v, WRAPPERS[i + k], templateId));
    if i < |WRAPPERS| {
      FromIsFirstFound(v, templateId, i + 1);
      assert os[0] == Inner(v, WRAPPERS[i], templateId);
      assert os[1..] == seq(|WRAPPERS| - (i + 1), k requires 0 <= k < |WRAPPERS| - (i + 1) =>
                              Inner(v, WRAPPERS[i + 1 + k], templateId));
    }
  }

  /** A value that names the template is its own result; otherwise the six wrapper fields are searched in
      this order. */
  lemma {:induction false} WrapperOrder(v: Json, templateId: string)
    ensures Extract(v, templateId) ==
            if GetStr(v, "template_id") == Some(templateId) then Some(v)
            else FirstFound([Inner(v, "fixed_task_output", templateId), Inner(v, "fixedTaskOutput", templateId),
                             Inner(v, "template_output", templateId), Inner(v, "templateOutput", templateId),
                             Inner(v, "result", templateId), Inner(v, "output", templateId)])
  {
    FromIsFirstFound(v, templateId, 0);
    hide Inner, ExtractFrom, FirstFound;
    assert seq(|WRAPPERS|, k requires 0 <= k < |WRAPPERS| => Inner(v, WRAPPERS[0 + k], templateId)) ==
           [Inner(v, "fixed_task_output", templateId), Inner(v, "fixedTaskOutput", templateId),
            Inner(v, "template_output", templateId), Inner(v, "templateOutput", templateId),
            Inner(v, "result", templateId), Inner(v, "output", templateId)];
  }

  // ----- The scan ------------------------------------------------------------------------------------

  /** Position `k` starts a JSON value, as far as the prefix parser can tell, and some route inside
      that value leads to an output. The parser stands for `Value::deserialize`, which reads one
      value and ignores what follows. */
  ghost predicate Hit(stdout: string, parse: string -> Option<Json>, templateId: string, k: nat)
    requires k < |stdout|
  {
    && stdout[k] == '{'
    && parse(stdout[k..]).Some?
    && exists p :: Leads(parse(stdout[k..]).value, templateId, p)
  }

  /** Something is found exactly if some route leads to an output, and what is found names the template. */
  lemma {:induction false} ExtractIffRoute(v: Json, templateId: string)
    ensures Extract(v, templateId).Some? <==> exists p :: Leads(v, templateId, p)
    ensures Extract(v, templateId).Some? ==>
              GetStr(Extract(v, templateId).value, "template_id") == Some(templateId)
  {
    var p := ExtractIsFirst(v, templateId);
    if Extract(v, templateId).Some? { assert Leads(v, templateId, p); }
  }

  /** `extract_fixed_task_output_from_stdout`: the result comes from the rightmost hit, and there is
      none exactly when no position is a hit. */
  method Scan(stdout: string, parse: string -> Option<Json>, templateId: string) returns (r: Option<Json>)
    ensures r.None? <==> forall k :: 0 <= k < |stdout| ==> !Hit(stdout, parse, templateId, k)
    ensures r.Some? ==> GetStr(r.value, "template_id") == Some(templateId)
    ensures r.Some? ==>
              exists k :: 0 <= k < |stdout| && Hit(stdout, parse, templateId, k)
                          && r == Extract(parse(stdout[k..]).value, templateId)
                          && forall j :: k < j < |stdout| ==> !Hit(stdout, parse, templateId, j)
  {
    var start := |stdout|;
    while start > 0
      invariant 0 <= start <= |stdout|
      invariant forall j :: start <= j < |stdout| ==> !Hit(stdout, parse, templateId, j)
    {
      start := start - 1;
      if stdout[start] == '{' {
        var value := parse(stdout[start..]);
        if value.Some? {
          ExtractIffRoute(value.value, templateId);
          r := Extract(value.value, templateId);
          if r.Some? {
            assert Hit(stdout, parse, templateId, start);
            return;
          }
        }
      }
    }
    r := None;
  }
}
