/** The notebook helpers the orchestration uses: the loss factory
    `build_loss`, the numbered-output-file helpers `get_last_file` and
    `get_next_file`, and the CLIP model-name cache of `load_clip`. */
module Notebook {
  import opened Wrappers
  import opened Text
  import opened LossAug

  // ---------------------------------------------------------------------
  // build_loss
  // ---------------------------------------------------------------------

  /** The message Python gives when `a, b = s.split("_", 1)` finds no `_`. */
  const UnpackMessage := "not enough values to unpack (expected 2, got 1)"

  /** `build_loss(weight_name, weight, name, img, pil_target)`, with
      `LOSS_DICT` passed in as `registry`. */
  function BuildLoss(weightName: string, weight: string, name: string, img: Image,
                     registry: map<string, LossClass>, target: Option<PilImage>): (r: Result<LossTerm>)
    ensures '_' !in weightName ==> r == Err(ValueError(UnpackMessage))
    ensures r.Ok? ==> r.value.TargetImageLoss? && r.value.shape == img.shape && r.value.target == target
    ensures r.Ok? ==> (r.value.enabled <==> target.Some?)
  {
    match SplitAtFirst(weightName, '_')
    case None => Err(ValueError(UnpackMessage))
    case Some(parts) =>
      var kind := parts.0;
      if kind != "direct" && kind !in registry then Err(KeyError(kind))
      else
        var cls := if kind == "direct" then img.preferredLoss else registry[kind];
        // the fresh term, enabled, then `out.set_enabled(pil_target is not None)`
        Ok(TargetImageLoss(cls, kind + " " + name + ":" + weight, img.shape, target, target.Some?))
  }

  /** The loss a weight named `kind_rest` builds: `direct` picks the image's
      preferred loss, any other kind must be registered, and the term is
      named `"<kind> <name>:<weight>"`. */
  lemma BuildLossOf(kind: string, rest: string, weight: string, name: string, img: Image,
                    registry: map<string, LossClass>, target: Option<PilImage>)
    requires '_' !in kind
    ensures var r := BuildLoss(kind + "_" + rest, weight, name, img, registry, target);
      if kind == "direct" then
        r == Ok(TargetImageLoss(img.preferredLoss, kind + " " + name + ":" + weight, img.shape, target, target.Some?))
      else if kind in registry then
        r == Ok(TargetImageLoss(registry[kind], kind + " " + name + ":" + weight, img.shape, target, target.Some?))
      else
        r == Err(KeyError(kind))
  {
    SplitAtFirstOf(kind, '_', rest);
  }

  // ---------------------------------------------------------------------
  // get_last_file / get_next_file
  // ---------------------------------------------------------------------

  /** A directory entry that matched the pattern, with its `index` group
      already read: None for an empty group, else the parsed integer. */
  datatype IndexedFile = IndexedFile(file: string, index: Option<int>)

  /** The sort key: an empty index counts as 0. */
  function Key(f: IndexedFile): int {
    if f.index.None? then 0 else f.index.value
  }

  ghost predicate SortedByKey(s: seq<IndexedFile>) {
    forall i, j :: 0 <= i < j < |s| ==> Key(s[i]) <= Key(s[j])
  }

  /** No file of `t` has a key below `k`. */
  ghost predicate KeysAtLeast(t: seq<IndexedFile>, k: int) {
    forall z :: z in t ==> k <= Key(z)
  }

  lemma SortedHeadIsLeast(s: seq<IndexedFile>)
    requires SortedByKey(s) && s != []
    ensures KeysAtLeast(s, Key(s[0]))
  {
    forall z | z in s ensures Key(s[0]) <= Key(z) {
      var j :| 0 <= j < |s| && s[j] == z;
    }
  }

  lemma SortedCons(y: IndexedFile, t: seq<IndexedFile>)
    requires SortedByKey(t) && KeysAtLeast(t, Key(y))
    ensures SortedByKey([y] + t)
  {
    var r := [y] + t;
    forall i, j | 0 <= i < j < |r| ensures Key(r[i]) <= Key(r[j]) {
      assert r[j] == t[j - 1] && t[j - 1] in t;
      if i > 0 {
        assert r[i] == t[i - 1];
      }
    }
  }

  lemma SortedInsertFront(x: IndexedFile, s: seq<IndexedFile>)
    requires SortedByKey(s) && (s == [] || Key(x) <= Key(s[0]))
    ensures SortedByKey([x] + s)
  {
    if s != [] {
      SortedHeadIsLeast(s);
    }
    SortedCons(x, s);
  }

  /** The recursive step of `InsertByKey`: the head stays in front of the
      insertion into the tail. */
  lemma InsertAfterHead(x: IndexedFile, s: seq<IndexedFile>, rest: seq<IndexedFile>)
    requires SortedByKey(s) && s != [] && Key(x) > Key(s[0])
    requires SortedByKey(rest) && multiset(rest) == multiset(s[1..]) + multiset{x}
    ensures SortedByKey([s[0]] + rest)
    ensures multiset([s[0]] + rest) == multiset(s) + multiset{x}
  {
    var tail := s[1..];
    SortedHeadIsLeast(s);
    assert KeysAtLeast(rest, Key(s[0])) by {
      forall z | z in rest ensures Key(s[0]) <= Key(z) {
        assert z in multiset(tail) + multiset{x};
        if z != x {
          assert z in tail;
          var q :| 0 <= q < |tail| && tail[q] == z;
          assert z == s[q + 1] && z in s;
        }
      }
    }
    SortedCons(s[0], rest);
    assert s == [s[0]] + tail;
  }

  /** Inserts `x` before the first element whose key is not smaller, so an
      element already present with an equal key stays after `x`. */
  function InsertByKey(x: IndexedFile, s: seq<IndexedFile>): (r: seq<IndexedFile>)
    requires SortedByKey(s)
    ensures SortedByKey(r)
    ensures multiset(r) == multiset(s) + multiset{x}
  {
    if s == [] || Key(x) <= Key(s[0]) then
      SortedInsertFront(x, s);
      [x] + s
    else
      var rest := InsertByKey(x, s[1..]);
      InsertAfterHead(x, s, rest);
      [s[0]] + rest
  }

  /** `files.sort(key=key)`, as an insertion sort that takes the files from
      the back and puts each one before any file with an equal key. Its
      contract states a sorted permutation; of Python's stability it states
      only what `get_last_file` reads, the last position (`SortByKeyLast`). */
  function SortByKey(s: seq<IndexedFile>): (r: seq<IndexedFile>)
    ensures SortedByKey(r)
    ensures multiset(r) == multiset(s)
    ensures |r| == |s|
  {
    if s == [] then []
    else
      assert s == [s[0]] + s[1..];
      InsertByKey(s[0], SortByKey(s[1..]))
  }

  lemma {:induction false} InsertByKeyLast(x: IndexedFile, s: seq<IndexedFile>)
    requires SortedByKey(s) && s != []
    ensures var r := InsertByKey(x, s);
      r[|r| - 1] == if Key(x) > Key(s[|s| - 1]) then x else s[|s| - 1]
  {
    if Key(x) <= Key(s[0]) {
    } else if |s| > 1 {
      InsertByKeyLast(x, s[1..]);
    }
  }

  /** Position `p` holds the largest key of `s`, and every later position a smaller one. */
  ghost predicate IsLastMaximum(s: seq<IndexedFile>, p: int) {
    && 0 <= p < |s|
    && (forall q :: 0 <= q < |s| ==> Key(s[q]) <= Key(s[p]))
    && (forall q :: p < q < |s| ==> Key(s[q]) < Key(s[p]))
  }

  /** The file a stable sort puts last is the last file, in listing order,
      among those with the largest key. */
  lemma LastMaximumCons(s: seq<IndexedFile>, p': int)
    requires s != [] && IsLastMaximum(s[1..], p')
    ensures var p := if Key(s[0]) > Key(s[p' + 1]) then 0 else p' + 1;
      IsLastMaximum(s, p)
  {
    var rest := s[1..];
    assert forall q :: 0 < q < |s| ==> s[q] == rest[q - 1];
  }

  lemma SortByKeySingle(s: seq<IndexedFile>)
    requires |s| == 1
    ensures IsLastMaximum(s, 0) && s[0] == SortByKey(s)[0]
  {
    assert s[1..] == [];
  }

  /** The step of `SortByKeyLast`: the last of the sorted list is either the
      head or the last of the sorted tail, whichever a stable sort puts last. */
  lemma SortByKeyLastStep(s: seq<IndexedFile>, p': int)
    requires |s| > 1 && IsLastMaximum(s[1..], p')
    requires s[p' + 1] == SortByKey(s[1..])[|s| - 2]
    ensures var p := if Key(s[0]) > Key(s[p' + 1]) then 0 else p' + 1;
      IsLastMaximum(s, p) && s[p] == SortByKey(s)[|s| - 1]
  {
    var t := SortByKey(s[1..]);
    assert SortByKey(s) == InsertByKey(s[0], t);
    InsertByKeyLast(s[0], t);
    LastMaximumCons(s, p');
  }

  /** The position of the last file, in listing order, among those with the largest key. */
  ghost function LastMaxPos(s: seq<IndexedFile>): (p: nat)
    requires s != []
    ensures p < |s|
  {
    if |s| == 1 then 0
    else
      var p' := LastMaxPos(s[1..]);
      if Key(s[0]) > Key(s[p' + 1]) then 0 else p' + 1
  }

  lemma {:induction false} SortByKeyLast(s: seq<IndexedFile>)
    requires s != []
    ensures IsLastMaximum(s, LastMaxPos(s)) && s[LastMaxPos(s)] == SortByKey(s)[|s| - 1]
  {
    if |s| == 1 {
      SortByKeySingle(s);
    } else {
      var p' := LastMaxPos(s[1..]);
      SortByKeyLast(s[1..]);
      assert s[1..][p'] == s[p' + 1];
      SortByKeyLastStep(s, p');
      assert LastMaxPos(s) == if Key(s[0]) > Key(s[p' + 1]) then 0 else p' + 1;
    }
  }

  /** `get_last_file`: None when no file matched (Python's `(None, None)`),
      otherwise the file the sort puts last and its key. */
  function LastFile(files: seq<IndexedFile>): (r: Option<(string, int)>)
    ensures r.None? <==> files == []
    ensures r.Some? ==> exists p :: IsLastMaximum(files, p) && files[p].file == r.value.0 && Key(files[p]) == r.value.1
  {
    if |files| == 0 then None
    else
      var sorted := SortByKey(files);
      var last := sorted[|sorted| - 1];
      SortByKeyLast(files);
      Some((last.file, Key(last)))
  }

  /** The name `get_next_file` returns: a template as it stands, or the
      template with its index group replaced by a number (the `re.sub`
      itself is not modelled). */
  datatype SlotName<T> = Verbatim(template: T) | Substituted(template: T, number: int)

  datatype NextSlot<T> = NextSlot(name: SlotName<T>, index: int)

  function Min(a: int, b: int): int {
    if a <= b then a else b
  }

  /** `get_next_file(directory, pattern, templates)` over the files that
      matched the pattern. */
  method NextFile<T>(files: seq<IndexedFile>, templates: seq<T>) returns (r: Result<NextSlot<T>>)
    ensures r.Err? <==> templates == []
    ensures r.Err? ==> r.error == IndexError
    ensures r.Ok? ==> 0 <= r.value.index <= |files|
    // the index is the first position of the sorted files whose key differs from it
    ensures r.Ok? ==> var keys := SortByKey(files); var k := r.value.index;
      (forall j :: 0 <= j < k ==> Key(keys[j]) == j) && (k < |files| ==> Key(keys[k]) != k)
    ensures r.Ok? ==> (r.value.index == 0 <==> r.value.name == Verbatim(templates[0]))
    // past the first position the template is picked by the position the scan stopped at
    ensures r.Ok? && r.value.index > 0 ==>
      var at := if r.value.index < |files| then r.value.index else |files| - 1;
      r.value.name == Substituted(templates[Min(at, |templates| - 1)], r.value.index)
  {
    if |files| == 0 {
      if |templates| == 0 { return Err(IndexError); }
      return Ok(NextSlot(Verbatim(templates[0]), 0));
    }
    var sorted := SortByKey(files);
    var n := |templates| - 1;
    var i := 0;
    while i < |sorted|
      invariant 0 <= i <= |sorted|
      invariant forall j :: 0 <= j < i ==> Key(sorted[j]) == j
    {
      var index := Key(sorted[i]);
      if i != index {
        if n < 0 { return Err(IndexError); }
        if i == 0 { return Ok(NextSlot(Verbatim(templates[0]), 0)); }
        return Ok(NextSlot(Substituted(templates[Min(i, n)], i), i));
      }
      i := i + 1;
    }
    // Python's loop variable still holds the last position here
    var last := i - 1;
    if n < 0 { return Err(IndexError); }
    return Ok(NextSlot(Substituted(templates[Min(last, n)], last + 1), last + 1));
  }

  /** Some file carries the key `k`. */
  ghost predicate HasKey(files: seq<IndexedFile>, k: int) {
    exists f :: f in files && Key(f) == k
  }

  ghost predicate DistinctKeys(s: seq<IndexedFile>) {
    forall i, j :: 0 <= i < j < |s| ==> Key(s[i]) != Key(s[j])
  }

  /** Putting a file in front of files with distinct keys, none equal to its own, keeps the keys distinct. */
  lemma DistinctKeysCons(y: IndexedFile, t: seq<IndexedFile>)
    requires DistinctKeys(t)
    requires forall z :: z in t ==> Key(z) != Key(y)
    ensures DistinctKeys([y] + t)
  {
    var r := [y] + t;
    forall i, j | 0 <= i < j < |r| ensures Key(r[i]) != Key(r[j]) {
      assert r[j] == t[j - 1];
      if i == 0 {
        assert t[j - 1] in t;
      } else {
        assert r[i] == t[i - 1];
      }
    }
  }

  lemma {:induction false} InsertByKeyStrict(x: IndexedFile, s: seq<IndexedFile>)
    requires SortedByKey(s) && DistinctKeys(s)
    requires forall y :: y in s ==> Key(y) != Key(x)
    ensures DistinctKeys(InsertByKey(x, s))
  {
    if s == [] || Key(x) <= Key(s[0]) {
      DistinctKeysCons(x, s);
    } else {
      var tail := s[1..];
      assert SortedByKey(tail) && DistinctKeys(tail) && forall y :: y in tail ==> y in s;
      InsertByKeyStrict(x, tail);
      var rest := InsertByKey(x, tail);
      forall y | y in rest ensures Key(y) != Key(s[0]) {
        assert y in multiset(tail) + multiset{x};
        if y != x {
          var q :| 0 <= q < |tail| && tail[q] == y;
          assert y == s[q + 1];
        }
      }
      DistinctKeysCons(s[0], rest);
    }
  }

  /** Sorting files with pairwise different keys gives strictly increasing keys. */
  lemma {:induction false} SortByKeyStrict(s: seq<IndexedFile>)
    requires DistinctKeys(s)
    ensures DistinctKeys(SortByKey(s))
  {
    if s != [] {
      var t := SortByKey(s[1..]);
      SortByKeyStrict(s[1..]);
      forall y | y in t ensures Key(y) != Key(s[0]) {
        assert y in multiset(s[1..]);
      }
      InsertByKeyStrict(s[0], t);
    }
  }

  lemma {:induction false} StrictKeysAtLeastPosition(s: seq<IndexedFile>, i: nat)
    requires SortedByKey(s) && DistinctKeys(s)
    requires forall j :: 0 <= j < |s| ==> Key(s[j]) >= 0
    requires i < |s|
    ensures Key(s[i]) >= i
  {
    if i > 0 {
      StrictKeysAtLeastPosition(s, i - 1);
    }
  }

  /** In strictly increasing non-negative keys, the first position whose
      key differs from it is a key nobody has. */
  lemma GapIsMissing(sorted: seq<IndexedFile>, k: int)
    requires SortedByKey(sorted) && DistinctKeys(sorted)
    requires forall j :: 0 <= j < |sorted| ==> Key(sorted[j]) >= 0
    requires 0 <= k <= |sorted|
    requires (forall j :: 0 <= j < k ==> Key(sorted[j]) == j) && (k < |sorted| ==> Key(sorted[k]) != k)
    ensures forall p :: 0 <= p < |sorted| ==> Key(sorted[p]) != k
  {
    if k < |sorted| {
      StrictKeysAtLeastPosition(sorted, k);
    }
  }

  /** Sorting keeps exactly the same files. */
  lemma SortByKeyMembers(files: seq<IndexedFile>)
    ensures forall f :: f in files <==> f in SortByKey(files)
  {
    var sorted := SortByKey(files);
    forall f ensures f in files <==> f in sorted {
      assert f in files <==> f in multiset(files);
      assert f in sorted <==> f in multiset(sorted);
    }
  }

  /** For files with distinct non-negative indices, the index `get_next_file`
      settles on is the smallest one no file has. */
  lemma NextIndexIsSmallestFree(files: seq<IndexedFile>, k: int)
    requires DistinctKeys(files)
    requires forall j :: 0 <= j < |files| ==> Key(files[j]) >= 0
    requires 0 <= k <= |files|
    requires var keys := SortByKey(files);
      (forall j :: 0 <= j < k ==> Key(keys[j]) == j) && (k < |files| ==> Key(keys[k]) != k)
    ensures !HasKey(files, k)
    ensures forall j :: 0 <= j < k ==> HasKey(files, j)
  {
    var sorted := SortByKey(files);
    SortByKeyStrict(files);
    SortByKeyMembers(files);
    forall j | 0 <= j < |sorted| ensures Key(sorted[j]) >= 0 {
      assert sorted[j] in files;
    }
    GapIsMissing(sorted, k);
    forall j | 0 <= j < k ensures HasKey(files, j) {
      assert sorted[j] in files;
    }
  }

  // ---------------------------------------------------------------------
  // load_clip
  // ---------------------------------------------------------------------

  /** The four CLIP model switches of the run parameters. */
  datatype ClipSelection = ClipSelection(rn50x4: bool, rn50: bool, vitB32: bool, vitB16: bool)

  /** The CLIP models `load_clip` knows, declared in the order it lists them. */
  datatype ClipModel = RN50x4 | RN50 | ViTB32 | ViTB16 {
    /** The name `load_clip` stores for the model. */
    function Name(): string {
      match this
      case RN50x4 => "RN50x4"
      case RN50 => "RN50"
      case ViTB32 => "ViT-B/32"
      case ViTB16 => "ViT-B/16"
    }

    /** The model's position in the listing order. */
    function Rank(): nat {
      match this
      case RN50x4 => 0
      case RN50 => 1
      case ViTB32 => 2
      case ViTB16 => 3
    }
  }

  function IsSelected(sel: ClipSelection, m: ClipModel): bool {
    match m
    case RN50x4 => sel.rn50x4
    case RN50 => sel.rn50
    case ViTB32 => sel.vitB32
    case ViTB16 => sel.vitB16
  }

  /** The models `load_clip` stores in `CLIP_MODEL_NAMES`: exactly the
      selected ones, each once, in the fixed listing order. */
  function SelectedModelNames(sel: ClipSelection): (r: seq<ClipModel>)
    ensures forall m :: m in r <==> IsSelected(sel, m)
    ensures forall i, j :: 0 <= i < j < |r| ==> r[i].Rank() < r[j].Rank()
    ensures r == [] <==> !(sel.rn50x4 || sel.rn50 || sel.vitB32 || sel.vitB16)
  {
    (if sel.rn50x4 then [RN50x4] else [])
    + (if sel.rn50 then [RN50] else [])
    + (if sel.vitB32 then [ViTB32] else [])
    + (if sel.vitB16 then [ViTB16] else [])
  }

  /** A call into the perceptor module. */
  datatype PerceptorCall = FreeClipCall | InitClipCall(names: seq<ClipModel>)

  /** The names that `load_clip` compares against: the cache, or the empty
      list before the first call. */
  function LastNames(cache: Option<seq<ClipModel>>): seq<ClipModel> {
    cache.GetOr([])
  }

  /** The process state `load_clip` reads and writes: the global
      `CLIP_MODEL_NAMES` and `Perceptor.CLIP_PERCEPTORS`, the latter known
      only by the names it was loaded with, plus the log of calls into the
      perceptor module. */
  class ClipSession {
    var modelNames: Option<seq<ClipModel>>
    var perceptors: Option<seq<ClipModel>>
    var calls: seq<PerceptorCall>

    /** Loaded perceptors always belong to the cached model names. */
    ghost predicate Consistent()
      reads this
    {
      perceptors.Some? ==> perceptors == modelNames
    }

    constructor ()
      ensures modelNames == None && perceptors == None && calls == []
      ensures Consistent()
    {
      modelNames, perceptors, calls := None, None, [];
    }

    /** `load_clip(params)`. */
    method LoadClip(sel: ClipSelection) returns (r: Outcome)
      modifies this
      ensures old(Consistent()) ==> Consistent()
      ensures modelNames == Some(SelectedModelNames(sel))
      ensures var names := SelectedModelNames(sel);
        if LastNames(old(modelNames)) == names && old(perceptors).Some? then
          r == Pass && perceptors == old(perceptors) && calls == old(calls)
        else if names == [] then
          r == Fail(RuntimeError("Please select at least one CLIP model"))
          && perceptors == None && calls == old(calls) + [FreeClipCall]
        else
          r == Pass && perceptors == Some(names) && calls == old(calls) + [FreeClipCall, InitClipCall(names)]
    {
      var lastNames := LastNames(modelNames);
      var names: seq<ClipModel> := [];
      if sel.rn50x4 { names := names + [RN50x4]; }
      if sel.rn50 { names := names + [RN50]; }
      if sel.vitB32 { names := names + [ViTB32]; }
      if sel.vitB16 { names := names + [ViTB16]; }
      assert names == SelectedModelNames(sel);
      modelNames := Some(names);
      if lastNames != names || perceptors.None? {
        if names == [] {
          FreeClip();
          return Fail(RuntimeError("Please select at least one CLIP model"));
        }
        FreeClip();
        InitClip(names);
      }
      r := Pass;
    }

    /** `Perceptor.free_clip()`. */
    method FreeClip()
      modifies this`perceptors, this`calls
      ensures perceptors == None && calls == old(calls) + [FreeClipCall]
    {
      perceptors := None;
      calls := calls + [FreeClipCall];
    }

    /** `Perceptor.init_clip(names)`. */
    method InitClip(names: seq<ClipModel>)
      modifies this`perceptors, this`calls
      ensures perceptors == Some(names) && calls == old(calls) + [InitClipCall(names)]
    {
      perceptors := Some(names);
      calls := calls + [InitClipCall(names)];
    }
  }
}
