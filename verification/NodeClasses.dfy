/**
 What the installed node classes declare, and the names and values derived from it: the order of a
 node's inputs, which names its widget values belong to, defaults, and combo values brought to the
 declared spelling.
 */
module NodeClasses {
  import opened Wrappers
  import opened NodeIds
  import opened NestedGraph
  import opened OrderedMap
  import opened Assembly
  import opened Filters

  datatype ApiValue = Lit(v: Value) | Ref(id: Id, slot: nat)

  /** The type place of an input declaration: a list or tuple of choices, or a type name. */
  datatype InputType = Choices(options: seq<Value>, isList: bool) | Named(ty: string)

  /** One option of a dynamic combo with the inputs it brings. */
  datatype SubOption = SubOption(key: Value, required: seq<string>, optional: seq<string>)

  /** choices and subs are the plain and the structured entries of the declaration's options list. */
  datatype InputSpec = InputSpec(name: string, ty: InputType, default: Option<Value>, choices: seq<Value>, subs: seq<SubOption>)

  datatype NodeClass = NodeClass(required: seq<InputSpec>, optional: seq<InputSpec>, isOutput: bool)

  /**
   The class table; the letter-case functions of the host language; and, for nodes whose class names
   no widgets, the names guessed from the workflow.
   */
  datatype Registry = Registry(classes: map<string, NodeClass>, lower: string -> string, upper: string -> bool,
                               guessed: map<Id, seq<string>>)

  type Dict = Inputs<string, ApiValue>

  function SpecsOf(reg: Registry, ty: string): seq<InputSpec> {
    if ty in reg.classes then reg.classes[ty].required + reg.classes[ty].optional else []
  }

  /** The class a node names in its properties, else its type. */
  function ClassName(body: Body): string {
    if body.alias.Some? then body.alias.value else body.ty
  }

  function NamesOf(specs: seq<InputSpec>): seq<string> {
    seq(|specs|, i requires 0 <= i < |specs| => specs[i].name)
  }

  /** All declared inputs, required ones first. */
  function OrderedNames(reg: Registry, body: Body): seq<string> {
    NamesOf(SpecsOf(reg, ClassName(body)))
  }

  method CollectOrderedNames(reg: Registry, body: Body) returns (names: seq<string>)
    ensures names == OrderedNames(reg, body)
    ensures var ty := if body.alias.Some? then body.alias.value else body.ty;
            if ty !in reg.classes then names == []
            else
              var (required, optional) := (reg.classes[ty].required, reg.classes[ty].optional);
              && |names| == |required| + |optional|
              && (forall i :: 0 <= i < |required| ==> names[i] == required[i].name)
              && forall i :: 0 <= i < |optional| ==> names[|required| + i] == optional[i].name
  {
    names := [];
    var ty := if body.alias.Some? then body.alias.value else body.ty;
    if ty in reg.classes {
      var c := reg.classes[ty];
      for i := 0 to |c.required|
        invariant names == NamesOf(c.required)[..i]
      {
        names := names + [c.required[i].name];
      }
      for i := 0 to |c.optional|
        invariant names == NamesOf(c.required) + NamesOf(c.optional)[..i]
      {
        names := names + [c.optional[i].name];
      }
    }
  }

  // ---------------------------------------------------------------- widget values

  predicate IsControl(v: Value) {
    v == Str("fixed") || v == Str("increment") || v == Str("decrement") || v == Str("randomize")
  }

  function Filtered(values: seq<Value>): seq<Value> {
    Kept(values, IsControl)
  }

  /** The filtered values are those at the positions that hold no control value, in order. */
  lemma FilteredInOrder(values: seq<Value>) returns (at: seq<nat>)
    ensures |at| == |Filtered(values)|
    ensures forall k :: 0 <= k < |at| ==> at[k] < |values| && Filtered(values)[k] == values[at[k]]
    ensures forall j, k :: 0 <= j < k < |at| ==> at[j] < at[k]
    ensures forall i :: 0 <= i < |values| ==>
              (i in at <==> values[i] !in {Str("fixed"), Str("increment"), Str("decrement"), Str("randomize")})
  {
    at := KeptInOrder(values, IsControl);
  }

  /** Looking ahead at the next value changes nothing: the scan is a plain filter. */
  method FilterControl(values: seq<Value>) returns (filtered: seq<Value>)
    ensures filtered == Filtered(values)
  {
    filtered := [];
    for i := 0 to |values|
      invariant filtered == Filtered(values[..i])
    {
      assert values[..i + 1][..i] == values[..i];
      if IsControl(values[i]) {
        continue;
      }
      if i + 1 < |values| && IsControl(values[i + 1]) {
        filtered := filtered + [values[i]];
        continue;
      }
      filtered := filtered + [values[i]];
    }
    assert values[..|values|] == values;
  }

  lemma {:induction false} FilteredLength(values: seq<Value>)
    ensures |Filtered(values)| <= |values|
    ensures |Filtered(values)| == |values| ==> Filtered(values) == values
    ensures (forall i :: 0 <= i < |values| ==> !IsControl(values[i])) ==> Filtered(values) == values
  {
    if values != [] {
      var front := values[..|values| - 1];
      FilteredLength(front);
      assert forall i :: 0 <= i < |front| ==> front[i] == values[i];
    }
  }

  lemma {:induction false} FilteredPrefix(values: seq<Value>, k: nat)
    requires k <= |values|
    ensures Filtered(values[..k]) <= Filtered(values)
  {
    if k < |values| {
      FilteredPrefix(values[..|values| - 1], k);
      assert values[..|values| - 1][..k] == values[..k];
    } else {
      assert values[..k] == values;
    }
  }

  /** The raw values up to k are also the filtered ones exactly when no control value is among them. */
  lemma FilterKeepsPrefix(values: seq<Value>, k: nat)
    requires k <= |values|
    ensures values[..k] <= Filtered(values) <==> forall i :: 0 <= i < k ==> !IsControl(values[i])
  {
    hide Filtered, IsControl;
    var front := values[..k];
    FilteredPrefix(values, k);
    FilteredLength(front);
    assert forall i :: 0 <= i < k ==> front[i] == values[i];
    if front <= Filtered(values) {
      KeptAreClean(values, front);
    }
  }

  lemma KeptAreClean(values: seq<Value>, front: seq<Value>)
    requires front <= Filtered(values)
    ensures forall i :: 0 <= i < |front| ==> !IsControl(front[i])
  {
  }

  predicate Contains(s: string, part: string)
    decreases |s|
  {
    part <= s || (s != "" && Contains(s[1..], part))
  }

  predicate IsDynamic(ty: InputType) {
    ty.Named? && "COMFY_" <= ty.ty && Contains(ty.ty, "COMBO")
  }

  predicate IsWidget(reg: Registry, ty: InputType) {
    || ty.Choices?
    || ty.ty == "INT" || ty.ty == "FLOAT" || ty.ty == "STRING" || ty.ty == "BOOLEAN" || ty.ty == "COMBO"
    || IsDynamic(ty)
    || !reg.upper(ty.ty)
  }

  /** The part stands somewhere in the text. */
  lemma {:induction false} ContainsAt(s: string, part: string)
    ensures Contains(s, part) <==> exists i :: 0 <= i <= |s| && part <= s[i..]
    decreases |s|
  {
    assert s[0..] == s;
    if !(part <= s) && s != "" {
      ContainsAt(s[1..], part);
      assert forall i :: 0 <= i <= |s[1..]| ==> s[1..][i..] == s[i + 1..];
      if i :| 0 <= i <= |s| && part <= s[i..] {
        assert s[1..][i - 1..] == s[i..];
      }
    }
  }

  /** Which declarations have widgets: choices, the five named types, dynamic combos, and types not in capitals. */
  lemma WidgetTypes(reg: Registry, ty: InputType)
    ensures IsDynamic(ty) <==> ty.Named? && "COMFY_" <= ty.ty && exists i :: 0 <= i <= |ty.ty| && "COMBO" <= ty.ty[i..]
    ensures IsWidget(reg, ty) <==>
      || ty.Choices?
      || ty.ty in {"INT", "FLOAT", "STRING", "BOOLEAN", "COMBO"}
      || ("COMFY_" <= ty.ty && exists i :: 0 <= i <= |ty.ty| && "COMBO" <= ty.ty[i..])
      || !reg.upper(ty.ty)
  {
    if ty.Named? {
      ContainsAt(ty.ty, "COMBO");
    }
  }

  function FindOption(subs: seq<SubOption>, v: Value): Option<SubOption> {
    if subs == [] then None
    else if subs[0].key == v then Some(subs[0])
    else FindOption(subs[1..], v)
  }

  function Dotted(name: string, subs: seq<string>): seq<string> {
    seq(|subs|, i requires 0 <= i < |subs| => name + "." + subs[i])
  }

  /** The names the option selected by values[idx] adds. */
  function SubNames(spec: InputSpec, values: seq<Value>, idx: nat): seq<string> {
    if !IsDynamic(spec.ty) || idx >= |values| then []
    else match FindOption(spec.subs, values[idx])
      case None => []
      case Some(o) => Dotted(spec.name, o.required + o.optional)
  }

  /** The names a dynamic combo adds: those of the first option whose key is the value at its place, required ones first, behind its own name and a dot. */
  lemma SubNamesAt(spec: InputSpec, values: seq<Value>, idx: nat, o: nat)
    requires IsDynamic(spec.ty) && idx < |values| && o < |spec.subs| && spec.subs[o].key == values[idx]
    requires forall j :: 0 <= j < o ==> spec.subs[j].key != values[idx]
    ensures var (names, required, optional) := (SubNames(spec, values, idx), spec.subs[o].required, spec.subs[o].optional);
            && |names| == |required| + |optional|
            && (forall i :: 0 <= i < |required| ==> names[i] == spec.name + "." + required[i])
            && forall i :: 0 <= i < |optional| ==> names[|required| + i] == spec.name + "." + optional[i]
  {
    FirstOption(spec.subs, values[idx], o);
  }

  lemma {:induction false} FirstOption(subs: seq<SubOption>, v: Value, o: nat)
    requires o < |subs| && subs[o].key == v && forall j :: 0 <= j < o ==> subs[j].key != v
    ensures FindOption(subs, v) == Some(subs[o])
  {
    if o > 0 {
      assert subs[0].key != v;
      FirstOption(subs[1..], v, o - 1);
    }
  }

  lemma {:induction false} NoOption(subs: seq<SubOption>, v: Value)
    requires forall j :: 0 <= j < |subs| ==> subs[j].key != v
    ensures FindOption(subs, v) == None
  {
    if subs != [] {
      NoOption(subs[1..], v);
    }
  }

  /** Nothing is added without a value, an option, or by any other declaration. */
  lemma NoSubNames(spec: InputSpec, values: seq<Value>, idx: nat)
    requires !IsDynamic(spec.ty) || idx >= |values| || forall j :: 0 <= j < |spec.subs| ==> spec.subs[j].key != values[idx]
    ensures SubNames(spec, values, idx) == []
  {
    if idx < |values| && forall j :: 0 <= j < |spec.subs| ==> spec.subs[j].key != values[idx] {
      NoOption(spec.subs, values[idx]);
    }
  }

  /** The widget names in order; a dynamic combo's selection is read at its own place in this list. */
  function WidgetNames(reg: Registry, specs: seq<InputSpec>, values: seq<Value>): seq<string> {
    if specs == [] then []
    else
      var (before, spec) := (WidgetNames(reg, specs[..|specs| - 1], values), specs[|specs| - 1]);
      if !IsWidget(reg, spec.ty) then before
      else before + [spec.name] + SubNames(spec, values, |before|)
  }

  function WidgetList(w: Widgets): seq<Value> {
    if w.ListWidgets? then w.values else []
  }

  /** The separate running index of the scan is always the number of names so far. */
  method CollectWidgetNames(reg: Registry, specs: seq<InputSpec>, values: seq<Value>) returns (names: seq<string>)
    ensures names == WidgetNames(reg, specs, values)
  {
    names := [];
    var idx := 0;
    for i := 0 to |specs|
      invariant names == WidgetNames(reg, specs[..i], values)
      invariant idx == |names|
    {
      assert specs[..i + 1][..i] == specs[..i];
      if IsWidget(reg, specs[i].ty) {
        names := names + [specs[i].name];
        if IsDynamic(specs[i].ty) && |values| > 0 {
          var subs := SubNames(specs[i], values, idx);
          names := names + subs;
          idx := idx + 1 + |subs|;
        } else {
          idx := idx + 1;
        }
      }
    }
    assert specs[..|specs|] == specs;
  }

  /** The names the widget values of a node belong to. */
  function Mapping(reg: Registry, id: Id, body: Body): seq<string> {
    var names := WidgetNames(reg, SpecsOf(reg, ClassName(body)), WidgetList(body.widgets));
    if names != [] then names
    else if id in reg.guessed then reg.guessed[id]
    else []
  }

  /** Values to names by position; unnamed and linked places are passed over. */
  function Mapped(names: seq<string>, values: seq<Value>, links: Dict): Dict {
    if values == [] then []
    else
      var k := |values| - 1;
      var before := Mapped(names, values[..k], links);
      if k < |names| && names[k] != "" && !Has(links, names[k]) then Put(before, names[k], Lit(values[k])) else before
  }

  /** Named values taken over as they are, but for the previews and what is linked. */
  function TakenOver(entries: seq<(string, Value)>, links: Dict): Dict {
    if entries == [] then []
    else
      var (key, value) := entries[|entries| - 1];
      var before := TakenOver(entries[..|entries| - 1], links);
      if key == "videopreview" || key == "preview" || Has(links, key) then before else Put(before, key, Lit(value))
  }

  function WidgetInputs(reg: Registry, id: Id, body: Body, links: Dict): Dict {
    match body.widgets
    case NoWidgets => []
    case ListWidgets(values) => Mapped(Mapping(reg, id, body), Filtered(values), links)
    case DictWidgets(entries) => TakenOver(entries, links)
  }

  method MapValues(names: seq<string>, values: seq<Value>, links: Dict) returns (ws: Dict)
    ensures ws == Mapped(names, Filtered(values), links)
  {
    ws := [];
    var filtered := FilterControl(values);
    for i := 0 to |filtered|
      invariant ws == Mapped(names, filtered[..i], links)
    {
      assert filtered[..i + 1][..i] == filtered[..i];
      if i < |names| && names[i] != "" && !Has(links, names[i]) {
        ws := Put(ws, names[i], Lit(filtered[i]));
      }
    }
    assert filtered[..|filtered|] == filtered;
  }

  method TakeOver(entries: seq<(string, Value)>, links: Dict) returns (ws: Dict)
    ensures ws == TakenOver(entries, links)
  {
    ws := [];
    for i := 0 to |entries|
      invariant ws == TakenOver(entries[..i], links)
    {
      assert entries[..i + 1][..i] == entries[..i];
      var (key, value) := entries[i];
      if key != "videopreview" && key != "preview" && !Has(links, key) {
        ws := Put(ws, key, Lit(value));
      }
    }
    assert entries[..|entries|] == entries;
  }

  method CollectWidgets(reg: Registry, id: Id, body: Body, links: Dict) returns (ws: Dict)
    ensures ws == WidgetInputs(reg, id, body, links)
  {
    match body.widgets
    case NoWidgets => ws := [];
    case ListWidgets(values) =>
      var names := CollectWidgetNames(reg, SpecsOf(reg, ClassName(body)), values);
      if names == [] && id in reg.guessed {
        names := reg.guessed[id];
      }
      ws := MapValues(names, values, links);
    case DictWidgets(entries) => ws := TakeOver(entries, links);
  }

  /** A widget never competes with a link. */
  lemma {:induction false} MappedUnlinked(names: seq<string>, values: seq<Value>, links: Dict, k: string)
    ensures Get(Mapped(names, values, links), k).Some? ==> !Has(links, k) && Get(Mapped(names, values, links), k).value.Lit?
  {
    if values != [] {
      hide Put, Get, Has;
      var n := |values| - 1;
      MappedUnlinked(names, values[..n], links, k);
      if n < |names| {
        GetPut(Mapped(names, values[..n], links), names[n], Lit(values[n]), k);
      }
    } else {
      assert Mapped(names, values, links) == [];
    }
  }

  lemma {:induction false} TakenOverUnlinked(entries: seq<(string, Value)>, links: Dict, k: string)
    ensures Get(TakenOver(entries, links), k).Some? ==> !Has(links, k) && Get(TakenOver(entries, links), k).value.Lit?
  {
    if entries != [] {
      hide Put, Get, Has;
      var n := |entries| - 1;
      TakenOverUnlinked(entries[..n], links, k);
      GetPut(TakenOver(entries[..n], links), entries[n].0, Lit(entries[n].1), k);
    } else {
      assert TakenOver(entries, links) == [];
    }
  }

  lemma WidgetsUnlinked(reg: Registry, id: Id, body: Body, links: Dict, k: string)
    ensures var ws := WidgetInputs(reg, id, body, links);
            Get(ws, k).Some? ==> !Has(links, k) && Get(ws, k).value.Lit?
  {
    match body.widgets
    case NoWidgets =>
    case ListWidgets(values) => MappedUnlinked(Mapping(reg, id, body), Filtered(values), links, k);
    case DictWidgets(entries) => TakenOverUnlinked(entries, links, k);
  }

  /** Exactly: a name has the value at its last place, unless it is empty or linked. */
  lemma {:induction false} MappedExactly(names: seq<string>, values: seq<Value>, links: Dict, k: string, v: Value)
    ensures Get(Mapped(names, values, links), k) == Some(Lit(v)) <==>
      && k != "" && !Has(links, k)
      && exists i :: 0 <= i < |names| && i < |values| && names[i] == k && values[i] == v
           && forall j :: i < j < |names| && j < |values| ==> names[j] != k
  {
    hide Put, Get, Has;
    if values == [] {
      NothingIn(Mapped(names, values, links), k);
    } else {
      var n := |values| - 1;
      MappedExactly(names, values[..n], links, k, v);
      if n < |names| {
        GetPut(Mapped(names, values[..n], links), names[n], Lit(values[n]), k);
      }
      assert forall i :: 0 <= i < n ==> values[..n][i] == values[i];
    }
  }

  lemma NothingIn(d: Dict, k: string)
    requires d == []
    ensures Get(d, k) == None
  {
  }

  /**
   What a list of widget values gives a name: the value at its last place among the names the class
   declares, or among the guessed ones when it declares none, of the values without control values.
   */
  lemma WidgetValueExactly(reg: Registry, id: Id, body: Body, links: Dict, k: string, v: Value)
    requires body.widgets.ListWidgets?
    ensures var declared := WidgetNames(reg, SpecsOf(reg, ClassName(body)), body.widgets.values);
            var names := if |declared| > 0 then declared else if id in reg.guessed then reg.guessed[id] else [];
            var values := Filtered(body.widgets.values);
            Get(WidgetInputs(reg, id, body, links), k) == Some(Lit(v)) <==>
            && k != "" && !Has(links, k)
            && exists i :: 0 <= i < |names| && i < |values| && names[i] == k && values[i] == v
                 && forall j :: i < j < |names| && j < |values| ==> names[j] != k
  {
    hide WidgetNames, Filtered, Mapped, Get, SpecsOf, ClassName;
    MappedExactly(Mapping(reg, id, body), Filtered(body.widgets.values), links, k, v);
  }

  /** A dictionary of widget values is taken over, but for the previews and what is linked. */
  lemma {:induction false} TakenOverExactly(entries: seq<(string, Value)>, links: Dict, k: string, v: Value)
    ensures Get(TakenOver(entries, links), k) == Some(Lit(v)) <==>
      && k != "videopreview" && k != "preview" && !Has(links, k)
      && exists i :: 0 <= i < |entries| && entries[i] == (k, v) && forall j :: i < j < |entries| ==> entries[j].0 != k
  {
    hide Put, Get, Has;
    if entries == [] {
      NothingIn(TakenOver(entries, links), k);
    } else {
      var n := |entries| - 1;
      TakenOverExactly(entries[..n], links, k, v);
      GetPut(TakenOver(entries[..n], links), entries[n].0, Lit(entries[n].1), k);
      assert forall i :: 0 <= i < n ==> entries[..n][i] == entries[i];
    }
  }

  /** Where positions have distinct names, each unlinked name gets the value at its position. */
  lemma {:induction false} MappedAt(names: seq<string>, values: seq<Value>, links: Dict, i: nat)
    requires Distinct(names) && i < |names|
    requires names[i] != "" && !Has(links, names[i])
    ensures Get(Mapped(names, values, links), names[i]) == if i < |values| then Some(Lit(values[i])) else None
  {
    if values != [] {
      hide Put, Get, Has;
      var n := |values| - 1;
      MappedAt(names, values[..n], links, i);
      if n < |names| {
        GetPut(Mapped(names, values[..n], links), names[n], Lit(values[n]), names[i]);
      }
    } else {
      assert Mapped(names, values, links) == [];
    }
  }

  /** The value at a place, if there is one. */
  function At(values: seq<Value>, idx: nat): Option<Value> {
    if idx < |values| then Some(values[idx]) else None
  }

  /**
   A dynamic combo reads its selection from the unfiltered values, but gets its value from the
   filtered ones.  The inputs it brings are those of its own value, whatever its options are, if and
   only if the two hold the same value at its place.
   */
  lemma ComboReadsItsValue(spec: InputSpec, values: seq<Value>, idx: nat)
    requires IsDynamic(spec.ty)
    ensures (forall subs :: SubNames(spec.(subs := subs), values, idx) == SubNames(spec.(subs := subs), Filtered(values), idx))
            <==> At(values, idx) == At(Filtered(values), idx)
  {
    FilteredLength(values);
    if At(values, idx) != At(Filtered(values), idx) {
      var subs := [SubOption(values[idx], [""], [])];
      assert FindOption(subs, values[idx]) == Some(subs[0]);
      assert SubNames(spec.(subs := subs), values, idx) == Dotted(spec.name, [""] + []);
      assert |Dotted(spec.name, [""] + [])| == 1;
      hide Filtered;
      OtherOption(subs[0], Filtered(values), idx, spec.(subs := subs));
    }
  }

  lemma OtherOption(o: SubOption, values: seq<Value>, idx: nat, spec: InputSpec)
    requires spec.subs == [o] && At(values, idx) != Some(o.key)
    ensures SubNames(spec, values, idx) == []
  {
    assert FindOption([o][1..], if idx < |values| then values[idx] else Null) == None;
  }

  /** In particular where no control value stands before or at its place. */
  lemma ComboBeforeControls(values: seq<Value>, idx: nat)
    requires idx < |values| && forall i :: 0 <= i <= idx ==> !IsControl(values[i])
    ensures At(values, idx) == At(Filtered(values), idx)
  {
    FilterKeepsPrefix(values, idx + 1);
    assert values[..idx + 1][idx] == Filtered(values)[idx];
  }

  /** The place of a dynamic combo is the number of names before it, and its inputs follow its own name. */
  lemma ComboPlace(reg: Registry, specs: seq<InputSpec>, values: seq<Value>, c: nat)
    requires c < |specs| && IsDynamic(specs[c].ty)
    ensures var before := WidgetNames(reg, specs[..c], values);
            WidgetNames(reg, specs[..c + 1], values) == before + [specs[c].name] + SubNames(specs[c], values, |before|)
  {
    assert specs[..c + 1][..c] == specs[..c];
  }

  /** Any other declaration adds its own name, if it has a widget. */
  lemma PlainPlace(reg: Registry, specs: seq<InputSpec>, values: seq<Value>, c: nat)
    requires c < |specs| && !IsDynamic(specs[c].ty)
    ensures WidgetNames(reg, specs[..c + 1], values)
            == WidgetNames(reg, specs[..c], values) + if IsWidget(reg, specs[c].ty) then [specs[c].name] else []
  {
    assert specs[..c + 1][..c] == specs[..c];
  }

  lemma FilterPair(v: Value, control: Value, x: Value)
    requires !IsControl(v) && IsControl(control) && !IsControl(x)
    ensures Filtered([v, control, x]) == [v, x]
  {
    hide IsControl;
    assert [v, control, x][..2] == [v, control] && [v, control][..1] == [v] && [v][..0] == [];
    assert Filtered([v]) == [v];
    assert Filtered([v, control]) == [v];
  }

  /** Behind a seed with its control value the combo's inputs are looked up under the control value. */
  lemma ComboMisreads(reg: Registry, seed: InputSpec, combo: InputSpec, v: Value, control: Value, x: Value)
    requires IsWidget(reg, seed.ty) && !IsDynamic(seed.ty) && IsDynamic(combo.ty)
    requires !IsControl(v) && IsControl(control) && !IsControl(x) && FindOption(combo.subs, control).None?
    ensures Filtered([v, control, x]) == [v, x]
    ensures WidgetNames(reg, [seed, combo], [v, control, x]) == [seed.name, combo.name]
    ensures WidgetNames(reg, [seed, combo], [v, x]) == [seed.name, combo.name] + SubNames(combo, [v, x], 1)
  {
    FilterPair(v, control, x);
    hide Filtered;
    assert [seed, combo][..1] == [seed] && [seed][..0] == [];
    forall values: seq<Value> ensures WidgetNames(reg, [seed], values) == [seed.name] {
      assert WidgetNames(reg, [], values) == [];
    }
  }

  // ---------------------------------------------------------------- defaults

  /** A declaration's default: the stated one, else a choice list's first entry. */
  function DefaultOf(spec: InputSpec): Option<Value> {
    if spec.default.Some? then spec.default
    else if spec.ty.Choices? then
      if spec.ty.isList && spec.ty.options != [] then Some(spec.ty.options[0]) else None
    else if spec.ty.ty == "COMBO" && spec.choices != [] then Some(spec.choices[0])
    else None
  }

  function Defaults(specs: seq<InputSpec>, ws: Dict, ps: Dict, ls: Dict): Dict {
    if specs == [] then []
    else
      var spec := specs[|specs| - 1];
      var before := Defaults(specs[..|specs| - 1], ws, ps, ls);
      if Has(ws, spec.name) || Has(ps, spec.name) || Has(ls, spec.name) || DefaultOf(spec).None? then before
      else Put(before, spec.name, Lit(DefaultOf(spec).value))
  }

  method CollectDefaults(specs: seq<InputSpec>, ws: Dict, ps: Dict, ls: Dict) returns (ds: Dict)
    ensures ds == Defaults(specs, ws, ps, ls)
  {
    ds := [];
    for i := 0 to |specs|
      invariant ds == Defaults(specs[..i], ws, ps, ls)
    {
      assert specs[..i + 1][..i] == specs[..i];
      var name := specs[i].name;
      if Has(ws, name) || Has(ps, name) || Has(ls, name) {
        continue;
      }
      if specs[i].default.Some? {
        ds := Put(ds, name, Lit(specs[i].default.value));
      } else if specs[i].ty.Choices? {
        if specs[i].ty.isList && |specs[i].ty.options| > 0 {
          ds := Put(ds, name, Lit(specs[i].ty.options[0]));
        }
      } else if specs[i].ty.ty == "COMBO" && |specs[i].choices| > 0 {
        ds := Put(ds, name, Lit(specs[i].choices[0]));
      }
    }
    assert specs[..|specs|] == specs;
  }

  /** Defaults fill gaps only. */
  lemma {:induction false} DefaultsFillGaps(specs: seq<InputSpec>, ws: Dict, ps: Dict, ls: Dict, k: string)
    ensures var ds := Defaults(specs, ws, ps, ls);
            Get(ds, k).Some? ==> !Has(ws, k) && !Has(ps, k) && !Has(ls, k) && Get(ds, k).value.Lit?
  {
    if specs != [] {
      hide Put, Get, Has;
      var n := |specs| - 1;
      DefaultsFillGaps(specs[..n], ws, ps, ls, k);
      if DefaultOf(specs[n]).Some? {
        GetPut(Defaults(specs[..n], ws, ps, ls), specs[n].name, Lit(DefaultOf(specs[n]).value), k);
      }
    } else {
      assert Defaults(specs, ws, ps, ls) == [];
    }
  }

  /** v is the default the declaration states, else the first entry of its list of choices, else, for a combo, of its options. */
  predicate StatesDefault(spec: InputSpec, v: Value) {
    if spec.default.Some? then spec.default.value == v
    else match spec.ty
      case Choices(options, isList) => isList && |options| > 0 && options[0] == v
      case Named(ty) => ty == "COMBO" && |spec.choices| > 0 && spec.choices[0] == v
  }

  lemma DefaultIs(spec: InputSpec)
    ensures forall v :: DefaultOf(spec) == Some(v) <==> StatesDefault(spec, v)
  {
  }

  /** A gap has the default that the last declaration of its name with a default states. */
  lemma {:induction false} DefaultsExactly(specs: seq<InputSpec>, ws: Dict, ps: Dict, ls: Dict, k: string, v: Value)
    ensures Get(Defaults(specs, ws, ps, ls), k) == Some(Lit(v)) <==>
      && !Has(ws, k) && !Has(ps, k) && !Has(ls, k)
      && exists i :: 0 <= i < |specs| && specs[i].name == k && StatesDefault(specs[i], v)
           && forall j :: i < j < |specs| && specs[j].name == k ==> forall x :: !StatesDefault(specs[j], x)
  {
    hide Put, Get, Has, DefaultOf, StatesDefault;
    if specs == [] {
      NothingIn(Defaults(specs, ws, ps, ls), k);
    } else {
      var n := |specs| - 1;
      DefaultsExactly(specs[..n], ws, ps, ls, k, v);
      DefaultIs(specs[n]);
      if DefaultOf(specs[n]).Some? {
        GetPut(Defaults(specs[..n], ws, ps, ls), specs[n].name, Lit(DefaultOf(specs[n]).value), k);
      }
      assert forall i :: 0 <= i < n ==> specs[..n][i] == specs[i];
    }
  }
}
