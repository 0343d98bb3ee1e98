/** Merging provider headers: `mergeHeaders` of `packages/ai/src/models.ts`.

  A header object is its list of entries in insertion order. Names compare by `lower`, which stands
  for `toLowerCase`; nothing is assumed about it. A value may be absent (null). */
module Headers {
  import opened Wrappers

  datatype Header = Header(name: string, value: Option<string>)

  type Headers = seq<Header>

  type Lower = string -> string

  /** The headers whose name differs from `name` even when case is ignored. */
  function Without(headers: Headers, name: string, lower: Lower): Headers {
    if headers == [] then []
    else if lower(headers[0].name) == lower(name) then Without(headers[1..], name, lower)
    else [headers[0]] + Without(headers[1..], name, lower)
  }

  function Merge(base: Headers, override: Headers, lower: Lower): Headers
    decreases override
  {
    if override == [] then base
    else Merge(Without(base, override[0].name, lower) + [override[0]], override[1..], lower)
  }

  function MergeOptional(base: Option<Headers>, override: Option<Headers>, lower: Lower): Option<Headers> {
    if base.None? && override.None? then None
    else Some(Merge(if base.Some? then base.value else [], if override.Some? then override.value else [], lower))
  }

  // ----- the meaning: a map from lower-case names -----

  /** The last header with a name, ignoring case. */
  function Lookup(headers: Headers, name: string, lower: Lower): Option<Header> {
    if headers == [] then None
    else
      var last := headers[|headers| - 1];
      if lower(last.name) == lower(name) then Some(last) else Lookup(headers[..|headers| - 1], name, lower)
  }

  ghost predicate CaseUnique(headers: Headers, lower: Lower) {
    forall i, j :: 0 <= i < j < |headers| ==> lower(headers[i].name) != lower(headers[j].name)
  }

  /** The headers that no later header of the list replaces. */
  function Latest(headers: Headers, lower: Lower): Headers {
    if headers == [] then []
    else if Lookup(headers[1..], headers[0].name, lower).Some? then Latest(headers[1..], lower)
    else [headers[0]] + Latest(headers[1..], lower)
  }

  /** The headers of `base` that `override` does not replace. */
  function Kept(base: Headers, override: Headers, lower: Lower): Headers {
    if base == [] then []
    else if Lookup(override, base[0].name, lower).Some? then Kept(base[1..], override, lower)
    else [base[0]] + Kept(base[1..], override, lower)
  }

  // ----- lemmas on lists -----

  lemma {:induction false} LookupAppend(left: Headers, right: Headers, name: string, lower: Lower)
    ensures Lookup(left + right, name, lower) ==
            if Lookup(right, name, lower).Some? then Lookup(right, name, lower) else Lookup(left, name, lower)
  {
    if right == [] {
      assert left + right == left;
    } else {
      assert (left + right)[..|left + right| - 1] == left + right[..|right| - 1];
      LookupAppend(left, right[..|right| - 1], name, lower);
    }
  }

  lemma LookupNothing(name: string, lower: Lower)
    ensures Lookup([], name, lower) == None
  {
  }

  lemma LookupOne(header: Header, name: string, lower: Lower)
    ensures Lookup([header], name, lower) == if lower(header.name) == lower(name) then Some(header) else None
  {
    assert [header][..0] == [];
  }

  lemma LookupCons(headers: Headers, name: string, lower: Lower)
    requires headers != []
    ensures Lookup(headers, name, lower) ==
            if Lookup(headers[1..], name, lower).Some? then Lookup(headers[1..], name, lower)
            else if lower(headers[0].name) == lower(name) then Some(headers[0]) else None
  {
    LookupAppend([headers[0]], headers[1..], name, lower);
    LookupOne(headers[0], name, lower);
    assert [headers[0]] + headers[1..] == headers;
  }

  lemma {:induction false} LookupSame(headers: Headers, one: string, other: string, lower: Lower)
    requires lower(one) == lower(other)
    ensures Lookup(headers, one, lower) == Lookup(headers, other, lower)
  {
    if headers != [] {
      LookupSame(headers[..|headers| - 1], one, other, lower);
    }
  }

  lemma {:induction false} LookupMember(headers: Headers, name: string, lower: Lower)
    ensures Lookup(headers, name, lower).Some? <==> exists i :: 0 <= i < |headers| && lower(headers[i].name) == lower(name)
    ensures Lookup(headers, name, lower).Some? ==> lower(Lookup(headers, name, lower).value.name) == lower(name)
  {
    if headers != [] {
      var init := headers[..|headers| - 1];
      LookupMember(init, name, lower);
      if i :| 0 <= i < |headers| && lower(headers[i].name) == lower(name) {
        if i < |init| {
          assert init[i] == headers[i];
        }
      }
      if i :| 0 <= i < |init| && lower(init[i].name) == lower(name) {
        assert headers[i] == init[i];
      }
    }
  }

  lemma {:induction false} WithoutIsKept(headers: Headers, header: Header, lower: Lower)
    ensures Without(headers, header.name, lower) == Kept(headers, [header], lower)
  {
    if headers != [] {
      WithoutIsKept(headers[1..], header, lower);
      LookupOne(header, headers[0].name, lower);
    }
  }

  lemma {:induction false} KeptAppend(left: Headers, right: Headers, override: Headers, lower: Lower)
    ensures Kept(left + right, override, lower) == Kept(left, override, lower) + Kept(right, override, lower)
  {
    if left == [] {
      assert left + right == right;
    } else {
      assert (left + right)[1..] == left[1..] + right;
      KeptAppend(left[1..], right, override, lower);
    }
  }

  lemma {:induction false} KeptTwice(base: Headers, one: Headers, other: Headers, lower: Lower)
    ensures Kept(Kept(base, one, lower), other, lower) == Kept(base, one + other, lower)
  {
    hide Lookup;
    if base != [] {
      LookupAppend(one, other, base[0].name, lower);
      KeptTwice(base[1..], one, other, lower);
      if Lookup(one, base[0].name, lower).None? {
        KeptAppend([base[0]], Kept(base[1..], one, lower), other, lower);
        KeptOne(base[0], other, lower);
      }
    }
  }

  lemma {:induction false} KeptNothing(base: Headers, lower: Lower)
    ensures Kept(base, [], lower) == base
  {
    if base != [] {
      KeptNothing(base[1..], lower);
    }
  }

  lemma {:induction false} LookupKept(base: Headers, override: Headers, name: string, lower: Lower)
    ensures Lookup(Kept(base, override, lower), name, lower) ==
            if Lookup(override, name, lower).Some? then None else Lookup(base, name, lower)
  {
    hide Lookup;
    if base == [] {
      LookupNothing(name, lower);
    } else {
      var rest := Kept(base[1..], override, lower);
      LookupKept(base[1..], override, name, lower);
      LookupCons(base, name, lower);
      if lower(base[0].name) == lower(name) {
        LookupSame(override, base[0].name, name, lower);
      }
      if Lookup(override, base[0].name, lower).None? {
        LookupCons([base[0]] + rest, name, lower);
        assert ([base[0]] + rest)[1..] == rest;
      }
    }
  }

  lemma KeptOne(header: Header, override: Headers, lower: Lower)
    ensures Kept([header], override, lower) == if Lookup(override, header.name, lower).Some? then [] else [header]
  {
    assert [header][1..] == [];
  }

  lemma Regroup(one: Headers, two: Headers, three: Headers)
    ensures (one + two) + three == one + (two + three)
  {
  }

  /** Merging keeps what is not overridden and appends the latest of what overrides. */
  lemma {:induction false} MergeShape(base: Headers, override: Headers, lower: Lower)
    ensures Merge(base, override, lower) == Kept(base, override, lower) + Latest(override, lower)
    decreases override
  {
    hide Lookup;
    if override == [] {
      KeptNothing(base, lower);
      assert Kept(base, override, lower) + [] == base;
    } else {
      var first, rest := override[0], override[1..];
      MergeShape(Without(base, first.name, lower) + [first], rest, lower);
      WithoutIsKept(base, first, lower);
      KeptAppend(Kept(base, [first], lower), [first], rest, lower);
      KeptTwice(base, [first], rest, lower);
      assert [first] + rest == override;
      KeptOne(first, rest, lower);
      assert Kept([first], rest, lower) + Latest(rest, lower) == Latest(override, lower);
      Regroup(Kept(base, override, lower), Kept([first], rest, lower), Latest(rest, lower));
    }
  }

  lemma {:induction false} LookupLatest(headers: Headers, name: string, lower: Lower)
    ensures Lookup(Latest(headers, lower), name, lower) == Lookup(headers, name, lower)
  {
    hide Lookup;
    if headers == [] {
    } else {
      var rest := Latest(headers[1..], lower);
      LookupLatest(headers[1..], name, lower);
      LookupCons(headers, name, lower);
      if lower(headers[0].name) == lower(name) {
        LookupSame(headers[1..], headers[0].name, name, lower);
      }
      if Lookup(headers[1..], headers[0].name, lower).None? {
        LookupCons([headers[0]] + rest, name, lower);
        assert ([headers[0]] + rest)[1..] == rest;
      }
    }
  }

  // ----- the laws -----

  /** The merged headers mean the base map overridden, case-insensitively, by the last match. */
  lemma MergeOverrides(base: Headers, override: Headers, name: string, lower: Lower)
    ensures Lookup(Merge(base, override, lower), name, lower) ==
            if Lookup(override, name, lower).Some? then Lookup(override, name, lower) else Lookup(base, name, lower)
  {
    MergeShape(base, override, lower);
    LookupAppend(Kept(base, override, lower), Latest(override, lower), name, lower);
    LookupKept(base, override, name, lower);
    LookupLatest(override, name, lower);
  }

  lemma {:induction false} UniqueAppend(left: Headers, right: Headers, lower: Lower)
    requires CaseUnique(left, lower) && CaseUnique(right, lower)
    requires forall i :: 0 <= i < |left| ==> Lookup(right, left[i].name, lower).None?
    ensures CaseUnique(left + right, lower)
  {
    forall i, j | 0 <= i < j < |left + right|
      ensures lower((left + right)[i].name) != lower((left + right)[j].name)
    {
      if i < |left| <= j {
        LookupMember(right, left[i].name, lower);
        assert (left + right)[j] == right[j - |left|];
      }
    }
  }

  lemma {:induction false} LatestUnique(headers: Headers, lower: Lower)
    ensures CaseUnique(Latest(headers, lower), lower)
  {
    if headers != [] {
      LatestUnique(headers[1..], lower);
      LookupLatest(headers[1..], headers[0].name, lower);
      if Lookup(headers[1..], headers[0].name, lower).None? {
        UniqueAppend([headers[0]], Latest(headers[1..], lower), lower);
      }
    }
  }

  lemma {:induction false} KeptUnique(base: Headers, override: Headers, lower: Lower)
    requires CaseUnique(base, lower)
    ensures CaseUnique(Kept(base, override, lower), lower)
    ensures forall i :: 0 <= i < |Kept(base, override, lower)| ==> Lookup(override, Kept(base, override, lower)[i].name, lower).None?
  {
    if base != [] {
      KeptUnique(base[1..], override, lower);
      LookupKept(base[1..], override, base[0].name, lower);
      LookupMember(base[1..], base[0].name, lower);
      assert forall i :: 0 <= i < |base[1..]| ==> base[1..][i] == base[i + 1];
      if Lookup(override, base[0].name, lower).None? {
        UniqueAppend([base[0]], Kept(base[1..], override, lower), lower);
      }
    }
  }

  /** The result has no two headers that differ only in case, whenever the base has none. */
  lemma MergeUnique(base: Headers, override: Headers, lower: Lower)
    requires CaseUnique(base, lower)
    ensures CaseUnique(Merge(base, override, lower), lower)
  {
    MergeShape(base, override, lower);
    KeptUnique(base, override, lower);
    LatestUnique(override, lower);
    var kept, latest := Kept(base, override, lower), Latest(override, lower);
    forall i | 0 <= i < |kept|
      ensures Lookup(latest, kept[i].name, lower).None?
    {
      LookupLatest(override, kept[i].name, lower);
    }
    UniqueAppend(kept, latest, lower);
  }

  lemma {:induction false} KeptSame(base: Headers, one: Headers, other: Headers, lower: Lower)
    requires forall name :: Lookup(one, name, lower).Some? <==> Lookup(other, name, lower).Some?
    ensures Kept(base, one, lower) == Kept(base, other, lower)
  {
    if base != [] {
      KeptSame(base[1..], one, other, lower);
    }
  }

  lemma {:induction false} LatestUniqueSame(headers: Headers, lower: Lower)
    requires CaseUnique(headers, lower)
    ensures Latest(headers, lower) == headers
  {
    if headers != [] {
      assert forall i :: 0 <= i < |headers[1..]| ==> headers[1..][i] == headers[i + 1];
      LatestUniqueSame(headers[1..], lower);
      LookupMember(headers[1..], headers[0].name, lower);
    }
  }

  lemma {:induction false} LatestAppend(left: Headers, right: Headers, lower: Lower)
    ensures Latest(left + right, lower) == Kept(Latest(left, lower), right, lower) + Latest(right, lower)
  {
    hide Lookup;
    if left == [] {
      assert left + right == right;
      assert [] + Latest(right, lower) == Latest(right, lower);
    } else {
      assert (left + right)[1..] == left[1..] + right;
      LatestAppend(left[1..], right, lower);
      LookupAppend(left[1..], right, left[0].name, lower);
      var rest := Latest(left[1..], lower);
      if Lookup(left[1..], left[0].name, lower).None? {
        KeptAppend([left[0]], rest, right, lower);
        KeptOne(left[0], right, lower);
        Regroup(Kept([left[0]], right, lower), Kept(rest, right, lower), Latest(right, lower));
      }
    }
  }

  lemma {:induction false} KeptLatest(headers: Headers, override: Headers, lower: Lower)
    ensures Latest(Kept(headers, override, lower), lower) == Kept(Latest(headers, lower), override, lower)
  {
    hide Lookup;
    if headers != [] {
      var rest := Kept(headers[1..], override, lower);
      KeptLatest(headers[1..], override, lower);
      LookupKept(headers[1..], override, headers[0].name, lower);
      if Lookup(headers[1..], headers[0].name, lower).None? {
        KeptAppend([headers[0]], Latest(headers[1..], lower), override, lower);
        KeptOne(headers[0], override, lower);
      }
      if Lookup(override, headers[0].name, lower).None? {
        assert ([headers[0]] + rest)[1..] == rest;
      }
    }
  }

  lemma {:induction false} LatestTwice(headers: Headers, lower: Lower)
    ensures Latest(Latest(headers, lower), lower) == Latest(headers, lower)
  {
    LatestUnique(headers, lower);
    LatestUniqueSame(Latest(headers, lower), lower);
  }

  lemma InnerLayers(two: Headers, three: Headers, lower: Lower)
    ensures var inner := Merge(two, three, lower);
            && Latest(inner, lower) == Kept(Latest(two, lower), three, lower) + Latest(three, lower)
            && forall name :: Lookup(inner, name, lower).Some? <==> Lookup(two + three, name, lower).Some?
  {
    hide Lookup, Kept, Latest, Merge;
    var latest := Latest(three, lower);
    MergeShape(two, three, lower);
    LatestAppend(Kept(two, three, lower), latest, lower);
    LatestTwice(three, lower);
    KeptLatest(two, three, lower);
    forall name
      ensures Lookup(Merge(two, three, lower), name, lower).Some? <==> Lookup(two + three, name, lower).Some?
      ensures Lookup(latest, name, lower).Some? <==> Lookup(three, name, lower).Some?
    {
      MergeOverrides(two, three, name, lower);
      LookupAppend(two, three, name, lower);
      LookupLatest(three, name, lower);
    }
    KeptSame(Kept(Latest(two, lower), three, lower), latest, three, lower);
    KeptIdempotent(Latest(two, lower), three, lower);
  }

  /** Merging is associative, as ordered lists, so layering three header sets means the same in
    whichever order the layers are combined. */
  lemma MergeAssociative(one: Headers, two: Headers, three: Headers, lower: Lower)
    ensures Merge(Merge(one, two, lower), three, lower) == Merge(one, Merge(two, three, lower), lower)
  {
    hide Lookup, Kept, Latest, Merge;
    var inner := Merge(two, three, lower);
    var latest := Latest(three, lower);
    MergeShape(one, two, lower);
    MergeShape(Merge(one, two, lower), three, lower);
    KeptAppend(Kept(one, two, lower), Latest(two, lower), three, lower);
    KeptTwice(one, two, three, lower);
    InnerLayers(two, three, lower);
    MergeShape(one, inner, lower);
    KeptSame(one, inner, two + three, lower);
    Regroup(Kept(one, two + three, lower), Kept(Latest(two, lower), three, lower), latest);
  }

  lemma {:induction false} KeptIdempotent(base: Headers, override: Headers, lower: Lower)
    ensures Kept(Kept(base, override, lower), override, lower) == Kept(base, override, lower)
  {
    KeptTwice(base, override, override, lower);
    forall name
      ensures Lookup(override + override, name, lower).Some? <==> Lookup(override, name, lower).Some?
    {
      LookupAppend(override, override, name, lower);
    }
    KeptSame(base, override + override, override, lower);
  }

  /** Request headers win over model headers, which win over auth headers. */
  lemma LayeredPriority(auth: Option<Headers>, model: Option<Headers>, request: Option<Headers>, name: string, lower: Lower)
    ensures var merged := MergeOptional(MergeOptional(auth, model, lower), request, lower);
            var find := (h: Option<Headers>) => if h.Some? then Lookup(h.value, name, lower) else None;
            find(merged) == if find(request).Some? then find(request) else if find(model).Some? then find(model) else find(auth)
  {
    var none: Headers := [];
    var a := if auth.Some? then auth.value else none;
    var m := if model.Some? then model.value else none;
    var r := if request.Some? then request.value else none;
    MergeOverrides(a, m, name, lower);
    MergeOverrides(Merge(a, m, lower), r, name, lower);
  }

  // ----- the loops -----

  function Names(headers: Headers): seq<string> {
    seq(|headers|, i requires 0 <= i < |headers| => headers[i].name)
  }

  /** Deleting one property. */
  function Drop(headers: Headers, name: string): Headers {
    if headers == [] then []
    else if headers[0].name == name then Drop(headers[1..], name)
    else [headers[0]] + Drop(headers[1..], name)
  }

  /** What is left after the properties among `gone` with the lower-case name were deleted. */
  function DropAll(headers: Headers, gone: seq<string>, name: string, lower: Lower): Headers {
    if headers == [] then []
    else if headers[0].name in gone && lower(headers[0].name) == lower(name) then DropAll(headers[1..], gone, name, lower)
    else [headers[0]] + DropAll(headers[1..], gone, name, lower)
  }

  lemma {:induction false} DropAllNext(headers: Headers, gone: seq<string>, next: string, name: string, lower: Lower)
    ensures DropAll(headers, gone + [next], name, lower) ==
            if lower(next) == lower(name) then Drop(DropAll(headers, gone, name, lower), next) else DropAll(headers, gone, name, lower)
  {
    if headers != [] {
      DropAllNext(headers[1..], gone, next, name, lower);
      var rest := DropAll(headers[1..], gone, name, lower);
      assert ([headers[0]] + rest)[1..] == rest;
      assert headers[0].name in gone + [next] <==> headers[0].name in gone || headers[0].name == next;
    }
  }

  lemma {:induction false} DropAllStart(headers: Headers, name: string, lower: Lower)
    ensures DropAll(headers, [], name, lower) == headers
  {
    if headers != [] {
      DropAllStart(headers[1..], name, lower);
    }
  }

  lemma {:induction false} DropAllEnd(headers: Headers, gone: seq<string>, name: string, lower: Lower)
    requires forall i :: 0 <= i < |headers| ==> headers[i].name in gone
    ensures DropAll(headers, gone, name, lower) == Without(headers, name, lower)
  {
    if headers != [] {
      DropAllEnd(headers[1..], gone, name, lower);
    }
  }

  lemma MergeNext(base: Headers, override: Headers, lower: Lower)
    requires override != []
    ensures Merge(base, override, lower) == Merge(Without(base, override[0].name, lower) + [override[0]], override[1..], lower)
  {
  }

  lemma MergeNothing(base: Headers, lower: Lower)
    ensures Merge(base, [], lower) == base
  {
  }

  method MergeHeaders(base: Option<Headers>, override: Option<Headers>, lower: Lower) returns (result: Option<Headers>)
    ensures result == MergeOptional(base, override, lower)
    ensures result.None? <==> base.None? && override.None?
  {
    if base.None? && override.None? {
      return None;
    }
    hide DropAll, Drop, Without, Merge;
    var start := if base.Some? then base.value else [];
    var entries := if override.Some? then override.value else [];
    var merged := start;
    assert entries[0..] == entries;
    for i := 0 to |entries|
      invariant Merge(start, entries, lower) == Merge(merged, entries[i..], lower)
    {
      var name := entries[i].name;
      var existing := Names(merged);
      ghost var before := merged;
      DropAllStart(merged, name, lower);
      for k := 0 to |existing|
        invariant merged == DropAll(before, existing[..k], name, lower)
      {
        DropAllNext(before, existing[..k], existing[k], name, lower);
        assert existing[..k + 1] == existing[..k] + [existing[k]];
        if lower(existing[k]) == lower(name) {
          merged := Drop(merged, existing[k]);
        }
      }
      assert existing[..|existing|] == existing;
      assert forall j :: 0 <= j < |before| ==> existing[j] == before[j].name;
      DropAllEnd(before, existing, name, lower);
      assert entries[i..][1..] == entries[i + 1..];
      MergeNext(before, entries[i..], lower);
      merged := merged + [entries[i]];
    }
    assert entries[|entries|..] == [];
    MergeNothing(merged, lower);
    result := Some(merged);
  }
}
