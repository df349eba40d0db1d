// Version comparison in cmd/update.go.
module Version {
  import opened Text

  // ---- splitting ----

  function TrimV(v: string): string {
    if v != [] && v[0] == 'v' then v[1..] else v
  }

  // The part before the first '-' or '+'.
  function Core(v: string): string {
    if v == [] || v[0] == '-' || v[0] == '+' then [] else [v[0]] + Core(v[1..])
  }

  // The parts between dots; there is always at least one.
  function Split(v: string): (parts: seq<string>)
    ensures parts != []
  {
    if v == [] then [[]]
    else if v[0] == '.' then [[]] + Split(v[1..])
    else
      var rest := Split(v[1..]);
      [[v[0]] + rest[0]] + rest[1..]
  }

  // A part that is no number counts as 0, one that is too large as the largest.
  function Component(part: string): int {
    match Atoi(part)
    case Number(n) => n
    case Malformed => 0
    case OutOfRange(bound) => bound
  }

  function ComponentsOf(parts: seq<string>): (r: seq<int>)
    ensures |r| == |parts|
  {
    if parts == [] then [] else ComponentsOf(parts[..|parts| - 1]) + [Component(parts[|parts| - 1])]
  }

  function Components(v: string): seq<int> {
    ComponentsOf(Split(Core(TrimV(v))))
  }

  method SplitVersion(v: string) returns (out: seq<int>)
    ensures out == Components(v)
  {
    var parts := Split(Core(TrimV(v)));
    out := [];
    for i := 0 to |parts|
      invariant out == ComponentsOf(parts[..i])
    {
      assert parts[..i + 1][..i] == parts[..i];
      out := out + [Component(parts[i])];
    }
    assert parts[..|parts|] == parts;
  }

  // ---- the order on component lists, padded with zeros ----

  function Padded(xs: seq<int>, i: nat): int {
    if i < |xs| then xs[i] else 0
  }

  ghost predicate SameUpTo(xs: seq<int>, ys: seq<int>, k: nat) {
    forall i: nat {:trigger Padded(xs, i)} {:trigger Padded(ys, i)} :: i < k ==> Padded(xs, i) == Padded(ys, i)
  }

  ghost predicate Same(xs: seq<int>, ys: seq<int>) {
    forall i: nat {:trigger Padded(xs, i)} {:trigger Padded(ys, i)} :: Padded(xs, i) == Padded(ys, i)
  }

  ghost predicate Before(xs: seq<int>, ys: seq<int>) {
    exists k: nat :: SameUpTo(xs, ys, k) && Padded(xs, k) < Padded(ys, k)
  }

  // The result of comparing two component lists from position i on.
  function CompareFrom(xs: seq<int>, ys: seq<int>, i: nat): int
    decreases |xs| + |ys| - i
  {
    if i >= |xs| && i >= |ys| then 0
    else if Padded(xs, i) < Padded(ys, i) then -1
    else if Padded(xs, i) > Padded(ys, i) then 1
    else CompareFrom(xs, ys, i + 1)
  }

  lemma {:induction false} CompareFromMeans(xs: seq<int>, ys: seq<int>, i: nat)
    requires SameUpTo(xs, ys, i)
    ensures var c := CompareFrom(xs, ys, i);
            && (c == 0 ==> Same(xs, ys)) && (c == -1 ==> Before(xs, ys)) && (c == 1 ==> Before(ys, xs))
            && (c == 0 || c == -1 || c == 1)
    decreases |xs| + |ys| - i
  {
    if i >= |xs| && i >= |ys| {
    } else if Padded(xs, i) == Padded(ys, i) {
      assert SameUpTo(xs, ys, i + 1);
      CompareFromMeans(xs, ys, i + 1);
    } else {
      assert SameUpTo(ys, xs, i);
    }
  }

  lemma Trichotomy(xs: seq<int>, ys: seq<int>)
    ensures !(Before(xs, ys) && Before(ys, xs)) && !(Same(xs, ys) && Before(xs, ys))
  {
  }

  // The comparison decides the lexicographic order on lists padded with zeros.
  lemma CompareDecides(xs: seq<int>, ys: seq<int>)
    ensures CompareFrom(xs, ys, 0) == 0 <==> Same(xs, ys)
    ensures CompareFrom(xs, ys, 0) == -1 <==> Before(xs, ys)
    ensures CompareFrom(xs, ys, 0) == 1 <==> Before(ys, xs)
  {
    hide Before, Same, SameUpTo, CompareFrom;
    NothingBeforeZero(xs, ys);
    CompareFromMeans(xs, ys, 0);
    Trichotomy(xs, ys);
    Trichotomy(ys, xs);
    SameSymmetric(xs, ys);
  }

  lemma NothingBeforeZero(xs: seq<int>, ys: seq<int>)
    ensures SameUpTo(xs, ys, 0)
  {
  }

  lemma SameSymmetric(xs: seq<int>, ys: seq<int>)
    ensures Same(xs, ys) <==> Same(ys, xs)
  {
  }

  // ---- comparing version strings ----

  predicate Unreleased(v: string) {
    v == "dev" || v == ""
  }

  function Compare(a: string, b: string): int {
    if a == b then 0 else if Unreleased(a) then -1 else CompareFrom(Components(a), Components(b), 0)
  }

  method CompareVersions(a: string, b: string) returns (c: int)
    ensures c == Compare(a, b)
  {
    if a == b {
      return 0;
    }
    if a == "dev" || a == "" {
      return -1;
    }
    var an := SplitVersion(a);
    var bn := SplitVersion(b);
    var i := 0;
    while i < |an| || i < |bn|
      invariant CompareFrom(an, bn, 0) == CompareFrom(an, bn, i)
      decreases |an| + |bn| - i
    {
      var x, y := 0, 0;
      if i < |an| {
        x := an[i];
      }
      if i < |bn| {
        y := bn[i];
      }
      if x != y {
        if x < y {
          return -1;
        }
        return 1;
      }
      i := i + 1;
    }
    return 0;
  }

  // On released versions the comparison is the order of their components.
  lemma CompareIsOrder(a: string, b: string)
    requires !Unreleased(a)
    ensures Compare(a, b) == 0 <==> Same(Components(a), Components(b))
    ensures Compare(a, b) == -1 <==> Before(Components(a), Components(b))
    ensures Compare(a, b) == 1 <==> Before(Components(b), Components(a))
  {
    hide Components, CompareFrom, Before, Same;
    CompareDecides(Components(a), Components(b));
    if a == b {
      CompareDecides(Components(b), Components(b));
      SameReflexive(Components(a));
    }
  }

  lemma SameReflexive(xs: seq<int>)
    ensures Same(xs, xs)
  {
  }

  lemma CompareRange(a: string, b: string)
    ensures Compare(a, b) == 0 || Compare(a, b) == -1 || Compare(a, b) == 1
  {
    hide Components, Before, Same, SameUpTo, CompareFrom;
    NothingBeforeZero(Components(a), Components(b));
    CompareFromMeans(Components(a), Components(b), 0);
  }

  // ... so it is a total preorder on them.
  lemma CompareTransitive(a: string, b: string, c: string)
    requires !Unreleased(a) && !Unreleased(b)
    requires Compare(a, b) <= 0 && Compare(b, c) <= 0
    ensures Compare(a, c) <= 0
    ensures Compare(a, c) == 0 <==> Compare(a, b) == 0 && Compare(b, c) == 0
  {
    hide Components, Compare, Before, Same;
    CompareIsOrder(a, b);
    CompareIsOrder(b, c);
    CompareIsOrder(a, c);
    CompareRange(a, b);
    CompareRange(b, c);
    CompareRange(a, c);
    OrderComposes(Components(a), Components(b), Components(c));
    Trichotomy(Components(a), Components(c));
  }

  lemma OrderComposes(xs: seq<int>, ys: seq<int>, zs: seq<int>)
    ensures Same(xs, ys) && Same(ys, zs) ==> Same(xs, zs)
    ensures Same(xs, ys) && Before(ys, zs) ==> Before(xs, zs)
    ensures Before(xs, ys) && Same(ys, zs) ==> Before(xs, zs)
    ensures Before(xs, ys) && Before(ys, zs) ==> Before(xs, zs)
  {
    if Same(xs, ys) && Before(ys, zs) {
      var k: nat :| SameUpTo(ys, zs, k) && Padded(ys, k) < Padded(zs, k);
      assert SameUpTo(xs, zs, k) && Padded(xs, k) == Padded(ys, k);
    }
    if Before(xs, ys) && Same(ys, zs) {
      var k: nat :| SameUpTo(xs, ys, k) && Padded(xs, k) < Padded(ys, k);
      assert SameUpTo(xs, zs, k) && Padded(ys, k) == Padded(zs, k);
    }
    if Before(xs, ys) && Before(ys, zs) {
      var k: nat :| SameUpTo(xs, ys, k) && Padded(xs, k) < Padded(ys, k);
      var m: nat :| SameUpTo(ys, zs, m) && Padded(ys, m) < Padded(zs, m);
      var j := if k < m then k else m;
      assert SameUpTo(xs, zs, j);
      assert k < m ==> Padded(ys, k) == Padded(zs, k);
      assert m < k ==> Padded(xs, m) == Padded(ys, m);
      assert Padded(xs, j) < Padded(zs, j);
    }
  }

  // Exchanging the sides changes the sign, exactly when both versions are
  // released, or they are equal, or the released one of the two is above 0.
  lemma AntisymmetricExactly(a: string, b: string)
    ensures Compare(a, b) == -Compare(b, a) <==>
              a == b || (!Unreleased(a) && !Unreleased(b))
              || (Unreleased(a) && !Unreleased(b) && Before([0], Components(b)))
              || (Unreleased(b) && !Unreleased(a) && Before([0], Components(a)))
  {
    hide Components, Before, Same;
    CompareRange(a, b);
    CompareRange(b, a);
    if !Unreleased(a) { CompareIsOrder(a, b); }
    if !Unreleased(b) { CompareIsOrder(b, a); }
    UnreleasedIsZero();
    SameSymmetric(Components(a), Components(b));
  }

  lemma UnreleasedIsZero()
    ensures Components("dev") == [0] && Components("") == [0]
  {
    var none: seq<string> := [];
    assert [""][..0] == none && ComponentsOf(none) == [];
    assert Split("") == [""] && ComponentsOf([""]) == [Component("")] == [0];
    assert Core("") == "" && TrimV("") == "";
    CoreKeeps("dev");
    assert TrimV("dev") == "dev";
    assert "dev"[1..] == "ev" && "ev"[1..] == "v" && "v"[1..] == "";
    assert Split("v") == ["v"];
    assert Split("ev") == ["ev"];
    assert Split("dev") == ["dev"];
    assert ["dev"][..0] == none && ComponentsOf(["dev"]) == [Component("dev")];
    assert !AllDigits("dev") by { assert !IsDigit("dev"[0]); }
  }

  lemma {:induction false} CoreKeeps(v: string)
    requires forall i :: 0 <= i < |v| ==> v[i] != '-' && v[i] != '+'
    ensures Core(v) == v
  {
    if v != [] { CoreKeeps(v[1..]); }
  }

  lemma {:induction false} CoreCuts(v: string, mark: char, rest: string)
    requires mark == '-' || mark == '+'
    requires forall i :: 0 <= i < |v| ==> v[i] != '-' && v[i] != '+'
    ensures Core(v + [mark] + rest) == v
  {
    if v == [] {
      assert v + [mark] + rest == [mark] + rest;
    } else {
      CoreCuts(v[1..], mark, rest);
      assert (v + [mark] + rest)[1..] == v[1..] + [mark] + rest;
    }
  }

  lemma {:induction false} SplitDot(v: string, w: string)
    ensures Split(v + "." + w) == Split(v) + Split(w)
  {
    hide Split;
    var u := v + "." + w;
    SplitUnfolds(u);
    if v == [] {
      assert u[1..] == w;
      SplitNothing();
    } else {
      SplitDot(v[1..], w);
      assert u[0] == v[0] && u[1..] == v[1..] + "." + w;
      SplitUnfolds(v);
      HeadOfConcat(Split(v[1..]), Split(w));
    }
  }

  lemma SplitNothing()
    ensures Split([]) == [[]]
  {
  }

  lemma HeadOfConcat(a: seq<string>, b: seq<string>)
    requires a != []
    ensures (a + b)[0] == a[0] && (a + b)[1..] == a[1..] + b
  {
  }

  lemma SplitUnfolds(v: string)
    requires v != []
    ensures Split(v) == if v[0] == '.' then [[]] + Split(v[1..])
                        else [[v[0]] + Split(v[1..])[0]] + Split(v[1..])[1..]
  {
  }

  // A trailing ".0" makes no difference, and neither does what follows the
  // first '-' or '+'.
  lemma TrailingZeroTies(v: string)
    requires v != "" && forall i :: 0 <= i < |v| ==> v[i] != '-' && v[i] != '+'
    ensures Components(v + ".0") == Components(v) + [0]
    ensures Same(Components(v + ".0"), Components(v))
  {
    hide Split, Core, Atoi, Decimal;
    var t := TrimV(v);
    assert TrimV(v + ".0") == t + "." + "0";
    CoreKeeps(t);
    CoreKeeps(t + "." + "0");
    SplitDot(t, "0");
    ZeroPart();
    var parts := Split(t) + ["0"];
    assert parts[..|parts| - 1] == Split(t);
  }

  lemma ZeroPart()
    ensures Split("0") == ["0"] && Component("0") == 0
  {
    assert "0"[1..] == "";
    SplitNothing();
    SplitUnfolds("0");
    assert ['0'] + "" == "0";
    AtoiDecimal(0);
    assert Decimal(0) == "0";
  }

  lemma MetadataIgnored(v: string, mark: char, rest: string)
    requires mark == '-' || mark == '+'
    requires v != "" && forall i :: 0 <= i < |v| ==> v[i] != '-' && v[i] != '+'
    ensures Components(v + [mark] + rest) == Components(v)
  {
    var t := TrimV(v);
    assert TrimV(v + [mark] + rest) == t + [mark] + rest;
    CoreKeeps(t);
    CoreCuts(t, mark, rest);
  }

  // ---- printed versions ----

  // The version text of a list of numbers.
  function Printed(ns: seq<int>): string
    requires ns != [] && forall i :: 0 <= i < |ns| ==> ns[i] >= 0
  {
    Decimal(ns[0]) + if |ns| == 1 then "" else "." + Printed(ns[1..])
  }

  ghost predicate Printable(ns: seq<int>) {
    ns != [] && forall i :: 0 <= i < |ns| ==> 0 <= ns[i] <= MAX_INT
  }

  lemma {:induction false} ComponentsCons(part: string, parts: seq<string>)
    ensures ComponentsOf([part] + parts) == [Component(part)] + ComponentsOf(parts)
  {
    hide Component;
    var every := [part] + parts;
    if parts == [] {
      assert every[..0] == [];
    } else {
      ComponentsCons(part, parts[..|parts| - 1]);
      assert every[..|every| - 1] == [part] + parts[..|parts| - 1];
    }
  }

  lemma {:induction false} SplitDigits(d: string)
    requires AllDigits(d)
    ensures Split(d) == [d]
  {
    if d == [] {
      SplitNothing();
    } else {
      SplitDigits(d[1..]);
      SplitUnfolds(d);
      assert IsDigit(d[0]) && [d[0]] + d[1..] == d;
    }
  }

  lemma {:induction false} PrintedParts(ns: seq<int>)
    requires Printable(ns)
    ensures ComponentsOf(Split(Printed(ns))) == ns
    ensures Printed(ns) != [] && IsDigit(Printed(ns)[0])
    ensures forall i :: 0 <= i < |Printed(ns)| ==> Printed(ns)[i] != '-' && Printed(ns)[i] != '+'
  {
    hide Split, Component, Decimal, Atoi;
    var d := Decimal(ns[0]);
    DecimalValue(ns[0]);
    NumberPart(ns[0]);
    SplitDigits(d);
    assert forall i :: 0 <= i < |d| ==> IsDigit(d[i]);
    if |ns| == 1 {
      ComponentsCons(d, []);
      assert d + "" == d;
    } else {
      var rest := Printed(ns[1..]);
      PrintedParts(ns[1..]);
      SplitDot(d, rest);
      ComponentsCons(d, Split(rest));
      assert d + ("." + rest) == d + "." + rest;
      assert ns == [ns[0]] + ns[1..];
    }
  }

  lemma NumberPart(n: nat)
    requires n <= MAX_INT
    ensures Component(Decimal(n)) == n
  {
    AtoiDecimal(n);
  }

  // A version printed from a list of numbers, with or without a leading "v", has
  // exactly these numbers as its components.
  lemma PrintedComponents(ns: seq<int>, v: bool)
    requires Printable(ns)
    ensures Components((if v then "v" else "") + Printed(ns)) == ns
  {
    hide Split, Printed, ComponentsOf, Core;
    var text := Printed(ns);
    PrintedParts(ns);
    CoreKeeps(text);
    if v {
      assert ("v" + text)[1..] == text;
    } else {
      assert "" + text == text;
    }
  }

  // Comparing two printed versions compares their numbers lexicographically, a
  // missing number counting as zero.
  lemma ComparePrinted(ms: seq<int>, v: bool, ns: seq<int>, w: bool)
    requires Printable(ms) && Printable(ns)
    ensures var c := Compare((if v then "v" else "") + Printed(ms), (if w then "v" else "") + Printed(ns));
            && (c == -1 <==> exists k: nat :: Padded(ms, k) < Padded(ns, k) && forall i: nat :: i < k ==> Padded(ms, i) == Padded(ns, i))
            && (c == 1 <==> exists k: nat :: Padded(ms, k) > Padded(ns, k) && forall i: nat :: i < k ==> Padded(ms, i) == Padded(ns, i))
            && (c == 0 <==> forall i: nat :: Padded(ms, i) == Padded(ns, i))
  {
    hide Components, Printed, Compare;
    var a, b := (if v then "v" else "") + Printed(ms), (if w then "v" else "") + Printed(ns);
    PrintedComponents(ms, v);
    PrintedComponents(ns, w);
    PrintedReleased(ms, v);
    CompareIsOrder(a, b);
  }

  lemma PrintedReleased(ns: seq<int>, v: bool)
    requires Printable(ns)
    ensures !Unreleased((if v then "v" else "") + Printed(ns))
  {
    hide Printed;
    PrintedParts(ns);
    var text := (if v then "v" else "") + Printed(ns);
    assert text[0] == if v then 'v' else Printed(ns)[0];
  }

  // A part that is no number counts as zero, one beyond 64 bits as the bound.
  lemma OddComponents(part: string, n: nat)
    requires part != "" && part[0] != '-' && part[0] != '+' && !AllDigits(part) && n > MAX_INT
    ensures Component(part) == 0 && Component("") == 0 && Component(Decimal(n)) == MAX_INT
  {
    DecimalValue(n);
    assert IsDigit(Decimal(n)[0]);
  }

  // "dev" and the empty string sort below every other version, and every text is
  // equal to itself.
  lemma UnreleasedBelow(b: string)
    ensures Compare(b, b) == 0
    ensures b != "dev" ==> Compare("dev", b) == -1
    ensures b != "" ==> Compare("", b) == -1
  {
  }
}
