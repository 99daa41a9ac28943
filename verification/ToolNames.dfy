/** The provider's wire names for tools: readable, valid, and reversible. */
module ToolNames {
  import opened Wrappers
  import opened Bytes
  import opened Seqs

  const UNDERSCORE: byte := 95
  const HYPHEN: byte := 45
  const FALLBACK: Bytes := [107, 111, 105, 95, 116, 111, 111, 108]

  predicate Allowed(b: byte) {
    48 <= b <= 57 || 65 <= b <= 90 || 97 <= b <= 122 || b == UNDERSCORE || b == HYPHEN
  }

  predicate AllAllowed(name: Bytes) {
    forall b :: b in name ==> Allowed(b)
  }

  predicate ValidName(name: Bytes) {
    name != [] && AllAllowed(name)
  }

  /** Every run of other bytes becomes one underscore. */
  function Squash(name: Bytes, afterSeparator: bool): (r: Bytes)
    ensures AllAllowed(r)
  {
    if name == [] then []
    else if Allowed(name[0]) then [name[0]] + Squash(name[1..], false)
    else if afterSeparator then Squash(name[1..], true)
    else [UNDERSCORE] + Squash(name[1..], true)
  }

  function TrimUnderscores(name: Bytes): (r: Bytes)
    ensures AllAllowed(name) ==> AllAllowed(r)
    ensures r != [] ==> r[0] != UNDERSCORE && r[|r| - 1] != UNDERSCORE
    decreases |name|
  {
    if name == [] then []
    else if name[0] == UNDERSCORE then TrimUnderscores(name[1..])
    else if name[|name| - 1] == UNDERSCORE then TrimUnderscores(name[..|name| - 1])
    else name
  }

  function Readable(name: Bytes): Bytes {
    TrimUnderscores(Squash(name, false))
  }

  function Base(name: Bytes): (r: Bytes)
    ensures ValidName(r)
  {
    if Readable(name) == [] then FALLBACK else Readable(name)
  }

  function Decimal(n: nat): (r: Bytes)
    ensures ValidName(r)
  {
    if n < 10 then [48 + n as byte] else Decimal(n / 10) + [48 + (n % 10) as byte]
  }

  lemma {:induction false} DecimalInjective(m: nat, n: nat)
    requires Decimal(m) == Decimal(n)
    ensures m == n
  {
    var d, e := Decimal(m), Decimal(n);
    assert d[|d| - 1] == 48 + (m % 10) as byte && e[|e| - 1] == 48 + (n % 10) as byte;
    if m >= 10 && n >= 10 {
      assert d[..|d| - 1] == Decimal(m / 10) && e[..|e| - 1] == Decimal(n / 10);
      DecimalInjective(m / 10, n / 10);
    }
  }

  /** The name tried with suffix `k`. */
  function Alias(base: Bytes, k: nat): Bytes {
    base + [UNDERSCORE] + Decimal(k)
  }

  lemma AliasInjective(base: Bytes, j: nat, k: nat)
    requires Alias(base, j) == Alias(base, k)
    ensures j == k
  {
    assert Alias(base, j)[|base| + 1..] == Decimal(j);
    assert Alias(base, k)[|base| + 1..] == Decimal(k);
    DecimalInjective(j, k);
  }

  ghost function Aliases(base: Bytes, n: nat): set<Bytes> {
    set k | 2 <= k < n :: Alias(base, k)
  }

  lemma {:induction false} AliasCount(base: Bytes, n: nat)
    requires n >= 2
    ensures |Aliases(base, n)| == n - 2
  {
    if n == 2 {
      assert Aliases(base, n) == {};
    } else {
      AliasCount(base, n - 1);
      var last := Alias(base, n - 1);
      if last in Aliases(base, n - 1) {
        var k :| 2 <= k < n - 1 && Alias(base, k) == last;
        AliasInjective(base, k, n - 1);
      }
      assert Aliases(base, n) == Aliases(base, n - 1) + {last};
    }
  }

  /** Aliases all taken are no more than the names taken: a free suffix is always within reach. */
  lemma Pigeonhole(base: Bytes, used: set<Bytes>, n: nat)
    requires n >= 2 && forall k :: 2 <= k < n ==> Alias(base, k) in used
    ensures n - 2 <= |used|
  {
    AliasCount(base, n);
    SubsetSize(Aliases(base, n), used);
  }

  /** A wire name for `base`: itself, or the first suffix such that everything before was taken. */
  ghost predicate FirstFree(wire: Bytes, base: Bytes, taken: set<Bytes>) {
    || wire == base
    || exists k: nat :: TakenBelow(base, k, taken) && wire == Alias(base, k)
  }

  ghost predicate TakenBelow(base: Bytes, k: nat, taken: set<Bytes>) {
    k >= 2 && base in taken && forall j :: 2 <= j < k ==> Alias(base, j) in taken
  }

  datatype ToolNameMap = ToolNameMap(internalToWire: map<Bytes, Bytes>, wireToInternal: map<Bytes, Bytes>) {
    function WireName(internal: Bytes): Bytes {
      if internal in internalToWire then internalToWire[internal] else Readable(internal)
    }

    function InternalName(wire: Bytes): Bytes {
      if wire in wireToInternal then wireToInternal[wire] else wire
    }

    /** The promise for one listed name. */
    ghost predicate Serves(name: Bytes) {
      && name in internalToWire
      && ValidName(WireName(name))
      && InternalName(WireName(name)) == name
      && (if ValidName(name) then WireName(name) == name
          else FirstFree(WireName(name), Base(name), wireToInternal.Keys))
    }

    /** Every wire name handed out leads back to where it came from. */
    ghost predicate Consistent() {
      forall n :: n in internalToWire ==> internalToWire[n] in wireToInternal && wireToInternal[internalToWire[n]] == n
    }
  }

  lemma DropNext(name: Bytes, i: nat)
    requires i < |name|
    ensures name[i..][0] == name[i] && name[i..][1..] == name[i + 1..]
  {}

  method ReadableName(name: Bytes) returns (r: Bytes)
    ensures r == Readable(name)
  {
    var result: Bytes := [];
    var afterSeparator := false;
    ghost var whole := Squash(name, false);
    assert name[0..] == name;
    AppendEmpty(whole);
    for i := 0 to |name|
      invariant whole == result + Squash(name[i..], afterSeparator)
    {
      DropNext(name, i);
      if Allowed(name[i]) {
        Regroup(result, [name[i]], Squash(name[i + 1..], false));
        result := result + [name[i]];
        afterSeparator := false;
      } else if !afterSeparator {
        Regroup(result, [UNDERSCORE], Squash(name[i + 1..], true));
        result := result + [UNDERSCORE];
        afterSeparator := true;
      }
    }
    AppendEmpty(result);
    r := TrimUnderscores(result);
  }

  /** Finds the wire name of one name that is not valid as it stands. */
  method ChooseWireName(base: Bytes, used: set<Bytes>) returns (wire: Bytes)
    requires ValidName(base) && |used| + 3 < U32_MAX
    ensures ValidName(wire) && wire !in used && FirstFree(wire, base, used)
  {
    wire := base;
    var suffix: nat := 2;
    while wire in used
      invariant 2 <= suffix < U32_MAX && ValidName(wire)
      invariant if suffix == 2 then wire == base
                else TakenBelow(base, suffix - 1, used) && wire == Alias(base, suffix - 1)
      decreases U32_MAX - suffix
    {
      if suffix > 2 {
        Pigeonhole(base, used, suffix);
      }
      wire := base + [UNDERSCORE] + Decimal(suffix);
      suffix := SaturatingAdd32(suffix, 1);
    }
  }

  function CountValid(names: seq<Bytes>): (n: nat)
    ensures n <= |names|
  {
    if names == [] then 0
    else CountValid(names[..|names| - 1]) + if ValidName(names[|names| - 1]) then 1 else 0
  }

  lemma {:induction false} CountValidPrefix(names: seq<Bytes>, i: nat)
    requires i <= |names|
    ensures 0 <= CountValid(names) - CountValid(names[..i]) <= |names| - i
  {
    if i < |names| {
      CountValidPrefix(names[..|names| - 1], i);
      assert names[..|names| - 1][..i] == names[..i];
    } else {
      assert names[..i] == names;
    }
  }

  lemma CountValidNext(names: seq<Bytes>, i: nat)
    requires i < |names|
    ensures CountValid(names[..i + 1]) == CountValid(names[..i]) + if ValidName(names[i]) then 1 else 0
  {
    assert names[..i + 1][..i] == names[..i];
  }

  /** Adding a free wire name for one internal name serves it and disturbs nobody. */
  lemma Insert(m: ToolNameMap, name: Bytes, wire: Bytes)
    requires m.Consistent() && ValidName(wire)
    requires wire !in m.wireToInternal || (wire == name && m.wireToInternal[wire] == name)
    requires if ValidName(name) then wire == name else FirstFree(wire, Base(name), m.wireToInternal.Keys)
    ensures var n := ToolNameMap(m.internalToWire[name := wire], m.wireToInternal[wire := name]);
            n.Consistent() && n.Serves(name) && forall other :: m.Serves(other) ==> n.Serves(other)
  {}

  /** Gives one name that is not valid as it stands a wire name of its own. */
  method AssignAlias(m: ToolNameMap, used: set<Bytes>, name: Bytes) returns (n: ToolNameMap, taken: set<Bytes>)
    requires used == m.wireToInternal.Keys && |used| + 3 < U32_MAX && m.Consistent() && !ValidName(name)
    ensures taken == n.wireToInternal.Keys && |taken| == |used| + 1 && n.Consistent()
    ensures n.Serves(name) && forall other :: m.Serves(other) ==> n.Serves(other)
  {
    var base := ReadableName(name);
    if base == [] {
      base := FALLBACK;
    }
    assert base == Base(name);
    var wire := ChooseWireName(base, used);
    Insert(m, name, wire);
    taken := used + {wire};
    n := ToolNameMap(m.internalToWire[name := wire], m.wireToInternal[wire := name]);
  }

  /** Reserves every name that is already valid, so that no alias can take it. */
  method ReserveValidNames(names: seq<Bytes>) returns (m: ToolNameMap, used: set<Bytes>)
    ensures used == m.wireToInternal.Keys && |used| <= CountValid(names) && m.Consistent()
    ensures forall j :: 0 <= j < |names| && ValidName(names[j]) ==> m.Serves(names[j])
  {
    m := ToolNameMap(map[], map[]);
    used := {};
    for i := 0 to |names|
      invariant used == m.wireToInternal.Keys && |used| <= CountValid(names[..i]) && m.Consistent()
      invariant forall n :: n in used ==> m.wireToInternal[n] == n
      invariant ValidServedUpTo(m, names, i)
    {
      CountValidNext(names, i);
      var name := names[i];
      if ValidName(name) {
        Insert(m, name, name);
        ghost var before := m;
        used := used + {name};
        m := ToolNameMap(m.internalToWire[name := name], m.wireToInternal[name := name]);
        ValidServedNext(before, m, names, i);
      }
    }
    TakeAll(names);
  }

  ghost predicate ValidServedUpTo(m: ToolNameMap, names: seq<Bytes>, i: nat) {
    forall j :: 0 <= j < |names| && ValidName(names[j]) && j < i ==> m.Serves(names[j])
  }

  lemma ValidServedNext(m: ToolNameMap, n: ToolNameMap, names: seq<Bytes>, i: nat)
    requires i < |names| && ValidServedUpTo(m, names, i)
    requires n.Serves(names[i]) && forall other :: m.Serves(other) ==> n.Serves(other)
    ensures ValidServedUpTo(n, names, i + 1)
  {}

  /** Builds the map for a tool list shorter than the range of the suffix counter. */
  method FromTools(names: seq<Bytes>) returns (m: ToolNameMap)
    requires |names| + 3 < U32_MAX
    ensures forall i :: 0 <= i < |names| ==> m.Serves(names[i])
  {
    var used: set<Bytes>;
    m, used := ReserveValidNames(names);
    for i := 0 to |names|
      invariant used == m.wireToInternal.Keys && m.Consistent()
      invariant |used| <= CountValid(names) + (i - CountValid(names[..i]))
      invariant ServedUpTo(m, names, i)
    {
      CountValidNext(names, i);
      CountValidPrefix(names, i);
      ghost var before := m;
      if !ValidName(names[i]) {
        m, used := AssignAlias(m, used, names[i]);
      }
      ServedNext(before, m, names, i);
    }
  }

  /** Valid names, and all names before position `i`, are served. */
  ghost predicate ServedUpTo(m: ToolNameMap, names: seq<Bytes>, i: nat) {
    forall j :: 0 <= j < |names| && (ValidName(names[j]) || j < i) ==> m.Serves(names[j])
  }

  lemma ServedNext(m: ToolNameMap, n: ToolNameMap, names: seq<Bytes>, i: nat)
    requires i < |names| && ServedUpTo(m, names, i)
    requires (n == m && ValidName(names[i]))
             || (n.Serves(names[i]) && forall other :: m.Serves(other) ==> n.Serves(other))
    ensures ServedUpTo(n, names, i + 1)
  {}

  /** Distinct listed tools never share a wire name. */
  lemma WireNamesAreDistinct(m: ToolNameMap, a: Bytes, b: Bytes)
    requires m.Serves(a) && m.Serves(b)
    ensures m.WireName(a) == m.WireName(b) <==> a == b
  {}
}
