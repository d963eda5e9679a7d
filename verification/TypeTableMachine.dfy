/** The type table as the program has it: text types, targets filled in as they are found. */
module TypeTableMachine {
  import opened Wrappers
  import opened TypeStrings
  import opened TypeTables

  class TypeTable {
    const decls: Decls
    var target: map<string, string>
    var resolving: set<string>
    /** The targets as trees. */
    ghost var memo: map<string, Ty>

    ghost predicate Valid() reads this {
      && (forall name :: name in decls ==> IsIdent(name) && DeclNamed(decls[name]))
      && (forall name :: name in memo ==> name in target && target[name] == Show(memo[name]))
      && (forall name :: name in target ==> name in memo || Plain(decls, name).Some?)
    }

    constructor (decls: Decls)
      requires forall name :: name in decls ==> IsIdent(name) && DeclNamed(decls[name])
      ensures Valid() && this.decls == decls && memo == map[] && resolving == {}
    {
      this.decls := decls;
      target, resolving, memo := map[], {}, map[];
    }

    /** The state after resolving `t` from `memo` and `resolving`; None is a reported error. */
    ghost predicate Ends(r: Option<string>, out: Outcome, marked: set<string>) reads this {
      && Valid()
      && match out
         case Failed(_) => r.None?
         case Done(ty, memo') => r == Some(Show(ty)) && memo == memo' && resolving == marked
    }

    method ResolveAlias(name: string) returns (r: Option<string>)
      requires Valid() && name in decls && Plain(decls, name).None?
      modifies this
      ensures Ends(r, Resolve(decls, Atom(name), old(memo), old(resolving)), old(resolving))
      decreases |decls.Keys - resolving|, Atom(name), 0
    {
      if name in target { return Some(target[name]); }
      if name in resolving { return None; }
      OpeningShrinks(decls, name, resolving);
      ghost var inner := Resolve(decls, decls[name].raw, memo, resolving + {name});
      ghost var before := resolving;
      resolving := resolving + {name};
      r := ResolveType(Show(decls[name].raw), decls[name].raw);
      if r.Some? {
        target := target[name := r.value];
        memo := memo[name := inner.ty];
        resolving := resolving - {name};
        assert resolving == before;
      }
    }

    method ResolveType(raw: string, ghost t: Ty) returns (r: Option<string>)
      requires Valid() && WellNamed(t) && raw == Show(t)
      modifies this
      ensures Ends(r, Resolve(decls, t, old(memo), old(resolving)), old(resolving))
      decreases |decls.Keys - resolving|, t, 1
    {
      Recognisers(t);
      if Bracketed("ARR[", raw) || Bracketed("REF[", raw) || Bracketed("TSK[", raw) {
        r := ResolveWrapped(raw, t);
      } else if Bracketed("MAP[", raw) || Bracketed("FN[", raw) {
        r := ResolvePair(raw, t);
      } else {
        assert t.Atom?;
        if Plain(decls, raw).Some? { return Some(Show(Plain(decls, raw).value)); }
        if raw !in decls { return None; }
        r := ResolveAlias(raw);
      }
    }

    method ResolveWrapped(raw: string, ghost t: Ty) returns (r: Option<string>)
      requires Valid() && WellNamed(t) && raw == Show(t) && (t.Arr? || t.Ref? || t.Tsk?)
      modifies this
      ensures Ends(r, Resolve(decls, t, old(memo), old(resolving)), old(resolving))
      decreases |decls.Keys - resolving|, t, 0
    {
      ghost var e := if t.Arr? then t.elem else t.target;
      ghost var out := Resolve(decls, e, memo, resolving);
      BracketsRead(raw[..3], Show(e));
      r := ResolveType(Inside(raw), e);
      if r.Some? { r := Some(Brackets(raw[..3], r.value)); }
    }

    method ResolvePair(raw: string, ghost t: Ty) returns (r: Option<string>)
      requires Valid() && WellNamed(t) && raw == Show(t) && (t.Map? || t.Fn?)
      modifies this
      ensures Ends(r, Resolve(decls, t, old(memo), old(resolving)), old(resolving))
      decreases |decls.Keys - resolving|, t, 0
    {
      ghost var a := if t.Map? then t.key else t.input;
      ghost var b := if t.Map? then t.value else t.output;
      var isMap, parts := ReadPair(raw, t);
      var first := ResolveType(parts.0, a);
      if first.None? { return None; }
      var second := ResolveType(parts.1, b);
      if second.None? { return None; }
      r := Some(if isMap then Brackets("MAP", first.value + ("," + second.value)) else Brackets("FN", first.value + ("->" + second.value)));
    }

    /** Between declarations: nothing marked, every remembered target the full unfolding. */
    ghost predicate Settled() reads this { Valid() && resolving == {} && MemoOk(decls, memo) }

    /** Resolving from a settled table. */
    method ResolveSettled(t: Ty) returns (r: Option<string>, ghost ty: Ty)
      requires Settled() && WellNamed(t)
      modifies this
      ensures r.None? ==> !HasMeaning(decls, t)
      ensures r.Some? ==> Settled() && Grown(old(memo), memo) && Expand(decls, t, |memo|) == Some(ty) && r.value == Show(ty)
      ensures r.Some? ==> ShowsMeaning(decls, t, r.value)
    {
      ResolvesExactly(decls, t, memo);
      ResolveExpands(decls, t, memo, {});
      ghost var out := Resolve(decls, t, memo, {});
      r := ResolveType(Show(t), t);
      ty := if out.Done? then out.ty else t;
      if r.Some? { assert Means(decls, t, ty); }
    }

    /** Every declaration in order. On success each alias has its full unfolding as target and
        each field has a checked type; otherwise some declared type has no meaning. */
    method BuildTypeTable(names: seq<string>) returns (ok: bool, checked: map<string, seq<string>>)
      requires Settled() && forall name :: name in names ==> name in decls
      modifies this
      ensures ok <==> forall name :: name in names ==> DeclMeans(decls, decls[name])
      ensures ok ==> Valid() && forall name :: name in names ==> Built(decls, name, memo, checked)
    {
      ok, checked := true, map[];
      for k := 0 to |names|
        invariant ok && Settled()
        invariant forall j :: 0 <= j < k ==> Built(decls, names[j], memo, checked)
      {
        ok, checked := ResolveDecl(names[k], checked);
        if !ok { assert names[k] in names; return; }
      }
    }

    method ResolveDecl(name: string, before: map<string, seq<string>>) returns (ok: bool, checked: map<string, seq<string>>)
      requires Settled() && name in decls
      modifies this
      ensures ok <==> DeclMeans(decls, decls[name])
      ensures ok ==> Settled() && Built(decls, name, memo, checked)
      ensures ok ==> forall other :: Built(decls, other, old(memo), before) ==> Built(decls, other, memo, checked)
    {
      checked := before;
      match decls[name]
      case Alias(raw) =>
        ghost var ty;
        var r;
        r, ty := ResolveSettled(raw);
        if r.Some? {
          assert Means(decls, raw, ty);
          SetTarget(name, r.value, ty);
          if IsAlias(decls, name) { AliasMeans(decls, name, memo); }
        }
        ok := r.Some?;
      case Struct(fields) =>
        var types := ResolveFields(fields);
        if types.Some? { checked := checked[name := types.value]; }
        ok := types.Some?;
    }

    method SetTarget(name: string, text: string, ghost ty: Ty)
      requires Settled() && name in decls && decls[name].Alias?
      requires Expand(decls, decls[name].raw, |memo|) == Some(ty) && text == Show(ty)
      modifies this
      ensures Settled() && Grown(old(memo), memo) && (IsAlias(decls, name) ==> name in memo)
    {
      target := target[name := text];
      if IsAlias(decls, name) {
        Retarget(decls, name, memo, ty);
        memo := memo[name := ty];
      }
    }

    method ResolveFields(fields: seq<Ty>) returns (types: Option<seq<string>>)
      requires Settled() && forall f :: f in fields ==> WellNamed(f)
      modifies this
      ensures types.None? ==> !forall f :: f in fields ==> HasMeaning(decls, f)
      ensures types.Some? ==> Settled() && Grown(old(memo), memo) && FieldsMean(decls, fields, types.value)
    {
      var done: seq<string> := [];
      for j := 0 to |fields|
        invariant Settled() && Grown(old(memo), memo) && |done| == j
        invariant forall m :: 0 <= m < j ==> ShowsMeaning(decls, fields[m], done[m])
      {
        var r, _ := ResolveSettled(fields[j]);
        if r.None? { assert fields[j] in fields; return None; }
        done := done + [r.value];
      }
      types := Some(done);
    }
  }

  ghost predicate ShowsMeaning(decls: Decls, t: Ty, text: string) { exists ty :: Means(decls, t, ty) && text == Show(ty) }

  ghost predicate HasMeaning(decls: Decls, t: Ty) { exists ty :: Means(decls, t, ty) }

  ghost predicate DeclMeans(decls: Decls, decl: Decl) {
    match decl
    case Alias(raw) => HasMeaning(decls, raw)
    case Struct(fields) => forall f :: f in fields ==> HasMeaning(decls, f)
  }

  ghost predicate FieldsMean(decls: Decls, fields: seq<Ty>, types: seq<string>) {
    |types| == |fields| && forall j :: 0 <= j < |fields| ==> ShowsMeaning(decls, fields[j], types[j])
  }

  /** What building leaves for one declaration. */
  ghost predicate Built(decls: Decls, name: string, memo: map<string, Ty>, checked: map<string, seq<string>>) {
    && name in decls && DeclMeans(decls, decls[name])
    && (IsAlias(decls, name) ==> name in memo && Means(decls, decls[name].raw, memo[name]))
    && (decls[name].Struct? ==> name in checked && FieldsMean(decls, decls[name].fields, checked[name]))
  }

  /** An alias met earlier is resolved again: the target is the same. */
  lemma {:induction false} Retarget(decls: Decls, name: string, memo: map<string, Ty>, ty: Ty)
    requires MemoOk(decls, memo) && IsAlias(decls, name) && Expand(decls, decls[name].raw, |memo|) == Some(ty)
    ensures MemoOk(decls, memo[name := ty]) && Grown(memo, memo[name := ty])
  {
    if name in memo {
      AliasMeans(decls, name, memo);
      assert Means(decls, decls[name].raw, ty);
      MeaningIsUnique(decls, decls[name].raw, ty, memo[name]);
      assert memo[name := ty] == memo;
    } else {
      Remember(decls, memo, name, ty);
    }
  }

  lemma {:induction false} AliasMeans(decls: Decls, name: string, memo: map<string, Ty>)
    requires MemoOk(decls, memo) && name in memo
    ensures Means(decls, decls[name].raw, memo[name])
  {
    assert Expand(decls, decls[name].raw, |memo| - 1) == Some(memo[name]);
  }

  predicate DeclNamed(decl: Decl) {
    match decl
    case Alias(raw) => WellNamed(raw)
    case Struct(fields) => forall f :: f in fields ==> WellNamed(f)
  }

  method ReadPair(raw: string, ghost t: Ty) returns (isMap: bool, parts: (string, string))
    requires WellNamed(t) && raw == Show(t) && (t.Map? || t.Fn?)
    ensures isMap == t.Map?
    ensures parts == if t.Map? then (Show(t.key), Show(t.value)) else (Show(t.input), Show(t.output))
  {
    Recognisers(t);
    isMap := Bracketed("MAP[", raw);
    var split;
    if isMap {
      MapSplits(t.key, t.value);
      split := SplitMapType(raw);
    } else {
      FnSplits(t.input, t.output);
      split := SplitFnType(raw);
    }
    parts := split.value;
  }
}
