/**
 Combo values in the spelling the class declares.  A value that is no declared option is replaced by
 the first option that differs only in letter case; required declarations are applied before
 optional ones.  Proved: nothing else changes, and applying it twice is applying it once exactly
 when no name is declared in both sections with options that clash.
 */
module ComboSpelling {
  import opened Wrappers
  import opened NestedGraph
  import opened OrderedMap
  import opened Assembly
  import opened NodeClasses

  type Lower = string -> string

  function FirstMatch(lower: Lower, options: seq<Value>, s: string): (r: Option<Value>)
    ensures r.Some? ==> r.value in options && r.value.Str? && lower(r.value.s) == lower(s)
    ensures r.None? ==> forall o :: o in options && o.Str? ==> lower(o.s) != lower(s)
  {
    if options == [] then None
    else if options[0].Str? && lower(options[0].s) == lower(s) then Some(options[0])
    else FirstMatch(lower, options[1..], s)
  }

  /** One declaration applied to one value. */
  function Respell(lower: Lower, options: seq<Value>, v: ApiValue): ApiValue {
    if v.Lit? && v.v.Str? && v.v !in options && FirstMatch(lower, options, v.v.s).Some?
    then Lit(FirstMatch(lower, options, v.v.s).value)
    else v
  }

  lemma {:induction false} FirstMatchAt(lower: Lower, options: seq<Value>, s: string, i: nat)
    requires i < |options| && options[i].Str? && lower(options[i].s) == lower(s)
    requires forall j :: 0 <= j < i ==> !(options[j].Str? && lower(options[j].s) == lower(s))
    ensures FirstMatch(lower, options, s) == Some(options[i])
  {
    if i > 0 {
      assert !(options[0].Str? && lower(options[0].s) == lower(s));
      FirstMatchAt(lower, options[1..], s, i - 1);
    }
  }

  /** A text that is no option becomes the first option that differs in letter case alone; everything else stays. */
  lemma RespellExactly(lower: Lower, options: seq<Value>, v: ApiValue, u: ApiValue)
    ensures Respell(lower, options, v) == u <==>
      if v.Lit? && v.v.Str? && v.v !in options
         && exists i :: 0 <= i < |options| && options[i].Str? && lower(options[i].s) == lower(v.v.s)
      then exists i :: 0 <= i < |options| && options[i].Str? && lower(options[i].s) == lower(v.v.s) && u == Lit(options[i])
                       && forall j :: 0 <= j < i ==> !(options[j].Str? && lower(options[j].s) == lower(v.v.s))
      else u == v
  {
    if v.Lit? && v.v.Str? && v.v !in options {
      var s := v.v.s;
      forall i | 0 <= i < |options| && options[i].Str? && lower(options[i].s) == lower(s)
                 && forall j :: 0 <= j < i ==> !(options[j].Str? && lower(options[j].s) == lower(s))
        ensures FirstMatch(lower, options, s) == Some(options[i]) {
        FirstMatchAt(lower, options, s, i);
      }
      if i :| 0 <= i < |options| && options[i].Str? && lower(options[i].s) == lower(s) {
        var f := FirstMatching(lower, options, s, i);
      }
    }
  }

  lemma {:induction false} FirstMatching(lower: Lower, options: seq<Value>, s: string, i: nat) returns (f: nat)
    requires i < |options| && options[i].Str? && lower(options[i].s) == lower(s)
    ensures f <= i && options[f].Str? && lower(options[f].s) == lower(s)
    ensures forall j :: 0 <= j < f ==> !(options[j].Str? && lower(options[j].s) == lower(s))
  {
    f := i;
    if j :| 0 <= j < i && options[j].Str? && lower(options[j].s) == lower(s) {
      f := FirstMatching(lower, options, s, j);
    }
  }

  function Apply(lower: Lower, spec: InputSpec, inputs: Dict): Dict {
    if spec.ty.Choices? && Has(inputs, spec.name)
    then Put(inputs, spec.name, Respell(lower, spec.ty.options, Get(inputs, spec.name).value))
    else inputs
  }

  function Normalised(lower: Lower, specs: seq<InputSpec>, inputs: Dict): Dict {
    if specs == [] then inputs
    else Apply(lower, specs[|specs| - 1], Normalised(lower, specs[..|specs| - 1], inputs))
  }

  method Normalise(lower: Lower, specs: seq<InputSpec>, inputs: Dict) returns (out: Dict)
    ensures out == Normalised(lower, specs, inputs)
  {
    out := inputs;
    for i := 0 to |specs|
      invariant out == Normalised(lower, specs[..i], inputs)
    {
      assert specs[..i + 1][..i] == specs[..i];
      var (name, ty) := (specs[i].name, specs[i].ty);
      if Has(out, name) && ty.Choices? {
        var value := Get(out, name).value;
        PutSame(out, name);
        if value.Lit? && value.v.Str? && value.v !in ty.options {
          var option := FindSpelling(lower, ty.options, value.v.s);
          if option.Some? {
            out := Put(out, name, Lit(option.value));
          }
        }
      }
    }
    assert specs[..|specs|] == specs;
  }

  method FindSpelling(lower: Lower, options: seq<Value>, s: string) returns (r: Option<Value>)
    ensures r == FirstMatch(lower, options, s)
  {
    for i := 0 to |options|
      invariant FirstMatch(lower, options, s) == FirstMatch(lower, options[i..], s)
    {
      if options[i].Str? && lower(options[i].s) == lower(s) {
        return Some(options[i]);
      }
    }
    return None;
  }

  // ---------------------------------------------------------------- what it does to one name

  /** All declarations of one name applied to its value. */
  function RespellAll(lower: Lower, specs: seq<InputSpec>, k: string, v: ApiValue): ApiValue {
    if specs == [] then v
    else
      var (before, spec) := (RespellAll(lower, specs[..|specs| - 1], k, v), specs[|specs| - 1]);
      if spec.name == k && spec.ty.Choices? then Respell(lower, spec.ty.options, before) else before
  }

  lemma {:induction false} NormalisedAt(lower: Lower, specs: seq<InputSpec>, inputs: Dict, k: string)
    ensures Keys(Normalised(lower, specs, inputs)) == Keys(inputs)
    ensures Get(Normalised(lower, specs, inputs), k) ==
            if Has(inputs, k) then Some(RespellAll(lower, specs, k, Get(inputs, k).value)) else None
  {
    hide Put, Get, Has, Keys, Respell;
    if specs != [] {
      var (front, spec) := (specs[..|specs| - 1], specs[|specs| - 1]);
      NormalisedAt(lower, front, inputs, k);
      ApplyAt(lower, spec, Normalised(lower, front, inputs), k);
      HasIs(Normalised(lower, front, inputs), k);
    }
    HasIs(inputs, k);
  }

  lemma HasIs<K, V>(m: Inputs<K, V>, k: K)
    ensures Has(m, k) <==> Get(m, k).Some?
  {
  }

  lemma ApplyAt(lower: Lower, spec: InputSpec, inputs: Dict, k: string)
    ensures Keys(Apply(lower, spec, inputs)) == Keys(inputs)
    ensures Get(Apply(lower, spec, inputs), k) ==
            if spec.ty.Choices? && spec.name == k && Has(inputs, k)
            then Some(Respell(lower, spec.ty.options, Get(inputs, k).value)) else Get(inputs, k)
  {
    hide Put, Keys, Get, Respell;
    HasKey(inputs, spec.name);
    if Has(inputs, spec.name) && spec.ty.Choices? {
      var v := Respell(lower, spec.ty.options, Get(inputs, spec.name).value);
      KeysPut(inputs, spec.name, v);
      GetPut(inputs, spec.name, v, k);
    }
  }

  lemma {:induction false} PutSame<K, V>(m: Inputs<K, V>, k: K)
    requires Has(m, k)
    ensures Put(m, k, Get(m, k).value) == m
  {
    if m[0].0 != k {
      PutSame(m[1..], k);
    }
  }

  /** Links and values that are not text are left alone. */
  lemma {:induction false} OnlyTextChanges(lower: Lower, specs: seq<InputSpec>, k: string, v: ApiValue)
    ensures v.Ref? || !v.v.Str? ==> RespellAll(lower, specs, k, v) == v
    ensures v.Lit? <==> RespellAll(lower, specs, k, v).Lit?
  {
    if specs != [] {
      OnlyTextChanges(lower, specs[..|specs| - 1], k, v);
    }
  }

  // ---------------------------------------------------------------- twice is once

  /**
   Two option lists of one name clash: some option of the first, not allowed by the second, is
   respelled by the second to something the first respells back.
   */
  predicate Clash(lower: Lower, a: seq<Value>, b: seq<Value>) {
    exists x :: x in a && x.Str? && x !in b
      && FirstMatch(lower, b, x.s).Some? && FirstMatch(lower, b, x.s).value !in a
      && FirstMatch(lower, a, x.s).value in b
  }

  lemma {:induction false} MatchByCase(lower: Lower, options: seq<Value>, s: string, t: string)
    requires lower(s) == lower(t)
    ensures FirstMatch(lower, options, s) == FirstMatch(lower, options, t)
  {
    if options != [] {
      MatchByCase(lower, options[1..], s, t);
    }
  }

  lemma RespellTwice(lower: Lower, a: seq<Value>, v: ApiValue)
    ensures Respell(lower, a, Respell(lower, a, v)) == Respell(lower, a, v)
  {
  }

  /** First a, then b, and again: the second round changes nothing unless the lists clash. */
  lemma TwoListsSettle(lower: Lower, a: seq<Value>, b: seq<Value>, v: ApiValue)
    requires !Clash(lower, a, b)
    ensures var once := Respell(lower, b, Respell(lower, a, v));
            Respell(lower, b, Respell(lower, a, once)) == once
  {
    var x := Respell(lower, a, v);
    var y := Respell(lower, b, x);
    if x != y {
      MatchByCase(lower, a, x.v.s, y.v.s);
      MatchByCase(lower, b, x.v.s, y.v.s);
      if y.v !in a && FirstMatch(lower, a, y.v.s).Some? {
        // y is respelled, so x is already in a; and only a clash would keep the new spelling
        var back := Respell(lower, a, y);
        MatchByCase(lower, b, back.v.s, y.v.s);
        assert back.v !in b;
      }
    }
  }

  lemma TwoListsClash(lower: Lower, a: seq<Value>, b: seq<Value>) returns (v: ApiValue)
    requires Clash(lower, a, b)
    ensures var once := Respell(lower, b, Respell(lower, a, v));
            Respell(lower, b, Respell(lower, a, once)) != once
  {
    var x :| x in a && x.Str? && x !in b
      && FirstMatch(lower, b, x.s).Some? && FirstMatch(lower, b, x.s).value !in a
      && FirstMatch(lower, a, x.s).value in b;
    v := Lit(x);
    MatchByCase(lower, a, x.s, FirstMatch(lower, b, x.s).value.s);
  }

  /** A section is a dictionary: at most one declaration per name. */
  predicate IsSection(specs: seq<InputSpec>) {
    forall i, j :: 0 <= i < j < |specs| ==> specs[i].name != specs[j].name
  }

  predicate Declares(specs: seq<InputSpec>, k: string, options: seq<Value>) {
    exists s :: s in specs && s.name == k && s.ty.Choices? && s.ty.options == options
  }

  lemma {:induction false} Undeclared(lower: Lower, specs: seq<InputSpec>, k: string, v: ApiValue)
    requires forall s :: s in specs && s.ty.Choices? ==> s.name != k
    ensures RespellAll(lower, specs, k, v) == v
  {
    if specs != [] {
      Undeclared(lower, specs[..|specs| - 1], k, v);
    }
  }

  lemma {:induction false} DeclaredOnce(lower: Lower, specs: seq<InputSpec>, k: string, options: seq<Value>, v: ApiValue)
    requires IsSection(specs) && Declares(specs, k, options)
    ensures RespellAll(lower, specs, k, v) == Respell(lower, options, v)
  {
    var (front, spec) := (specs[..|specs| - 1], specs[|specs| - 1]);
    var s :| s in specs && s.name == k && s.ty.Choices? && s.ty.options == options;
    if s in front {
      DeclaredOnce(lower, front, k, options, v);
    } else {
      Undeclared(lower, front, k, v);
    }
  }

  lemma {:induction false} RespellJoin(lower: Lower, a: seq<InputSpec>, b: seq<InputSpec>, k: string, v: ApiValue)
    ensures RespellAll(lower, a + b, k, v) == RespellAll(lower, b, k, RespellAll(lower, a, k, v))
  {
    if b == [] {
      assert a + b == a;
    } else {
      assert (a + b)[..|a + b| - 1] == a + b[..|b| - 1];
      RespellJoin(lower, a, b[..|b| - 1], k, v);
    }
  }

  /** One section is one option list or none. */
  lemma Section(lower: Lower, specs: seq<InputSpec>, k: string) returns (r: Option<seq<Value>>)
    requires IsSection(specs)
    ensures r.Some? ==> Declares(specs, k, r.value)
    ensures forall v :: RespellAll(lower, specs, k, v) == if r.Some? then Respell(lower, r.value, v) else v
  {
    if s :| s in specs && s.name == k && s.ty.Choices? {
      r := Some(s.ty.options);
      forall v ensures RespellAll(lower, specs, k, v) == Respell(lower, r.value, v) {
        DeclaredOnce(lower, specs, k, r.value, v);
      }
    } else {
      r := None;
      forall v ensures RespellAll(lower, specs, k, v) == v {
        Undeclared(lower, specs, k, v);
      }
    }
  }

  ghost predicate SectionsClash(lower: Lower, c: NodeClass) {
    exists k, a, b :: Declares(c.required, k, a) && Declares(c.optional, k, b) && Clash(lower, a, b)
  }

  /** Normalising again changes nothing, for every dictionary of inputs, exactly when no name's sections clash. */
  lemma NormaliseTwice(lower: Lower, c: NodeClass)
    requires IsSection(c.required) && IsSection(c.optional)
    ensures (forall inputs: Dict :: Distinct(Keys(inputs)) ==>
              var once := Normalised(lower, c.required + c.optional, inputs);
              Normalised(lower, c.required + c.optional, once) == once)
            <==> !SectionsClash(lower, c)
  {
    var specs := c.required + c.optional;
    if SectionsClash(lower, c) {
      var k, a, b :| Declares(c.required, k, a) && Declares(c.optional, k, b) && Clash(lower, a, b);
      var v := TwoListsClash(lower, a, b);
      var inputs: Dict := [(k, v)];
      var once := Normalised(lower, specs, inputs);
      NormalisedAt(lower, specs, inputs, k);
      NormalisedAt(lower, specs, once, k);
      RespellBoth(lower, c, k, a, b, v);
      RespellBoth(lower, c, k, a, b, RespellAll(lower, specs, k, v));
      assert Get(once, k) != Get(Normalised(lower, specs, once), k);
      assert Distinct(Keys(inputs));
    } else {
      forall inputs: Dict | Distinct(Keys(inputs))
        ensures Normalised(lower, specs, Normalised(lower, specs, inputs)) == Normalised(lower, specs, inputs)
      {
        NoClashSettles(lower, c, inputs);
      }
    }
  }

  lemma RespellBoth(lower: Lower, c: NodeClass, k: string, a: seq<Value>, b: seq<Value>, v: ApiValue)
    requires IsSection(c.required) && IsSection(c.optional)
    requires Declares(c.required, k, a) && Declares(c.optional, k, b)
    ensures RespellAll(lower, c.required + c.optional, k, v) == Respell(lower, b, Respell(lower, a, v))
  {
    RespellJoin(lower, c.required, c.optional, k, v);
    DeclaredOnce(lower, c.required, k, a, v);
    DeclaredOnce(lower, c.optional, k, b, Respell(lower, a, v));
  }

  lemma ValueSettles(lower: Lower, c: NodeClass, k: string, v: ApiValue)
    requires IsSection(c.required) && IsSection(c.optional) && !SectionsClash(lower, c)
    ensures var once := RespellAll(lower, c.required + c.optional, k, v);
            RespellAll(lower, c.required + c.optional, k, once) == once
  {
    var a := Section(lower, c.required, k);
    var b := Section(lower, c.optional, k);
    RespellJoin(lower, c.required, c.optional, k, v);
    RespellJoin(lower, c.required, c.optional, k, RespellAll(lower, c.required + c.optional, k, v));
    hide RespellAll, Respell, Clash;
    if a.Some? && b.Some? {
      TwoListsSettle(lower, a.value, b.value, v);
    } else if a.Some? {
      RespellTwice(lower, a.value, v);
    } else if b.Some? {
      RespellTwice(lower, b.value, v);
    }
  }

  lemma NoClashSettles(lower: Lower, c: NodeClass, inputs: Dict)
    requires IsSection(c.required) && IsSection(c.optional) && !SectionsClash(lower, c)
    requires Distinct(Keys(inputs))
    ensures var once := Normalised(lower, c.required + c.optional, inputs);
            Normalised(lower, c.required + c.optional, once) == once
  {
    hide Normalised, RespellAll, Keys, Get, SectionsClash;
    var specs := c.required + c.optional;
    var once := Normalised(lower, specs, inputs);
    var twice := Normalised(lower, specs, once);
    forall k ensures Get(once, k) == Get(twice, k) {
      NormalisedAt(lower, specs, inputs, k);
      NormalisedAt(lower, specs, once, k);
      if Has(inputs, k) {
        ValueSettles(lower, c, k, Get(inputs, k).value);
      }
    }
    NormalisedAt(lower, specs, inputs, "");
    NormalisedAt(lower, specs, once, "");
    SameEntries(once, twice);
  }

  /** Two spellings each way: "True" becomes "TRUE", which becomes "true". */
  lemma ClashExists(lower: Lower)
    requires lower("True") == "true" && lower("TRUE") == "true" && lower("true") == "true"
    ensures Clash(lower, [Str("true"), Str("True")], [Str("TRUE"), Str("true")])
  {
  }
}
