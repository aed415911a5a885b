/** Queue keys, names of the children of a network and names of its pods. */
module Names {
  import opened Types

  const STS_POSTFIX := "-sts"
  const SVC_POSTFIX := "-svc"

  // ---------------------------------------------------------------- decimal numerals

  function Digit(d: nat): char
    requires d < 10
  {
    '0' + d as char
  }

  /** strconv.FormatInt(n, 10) for n >= 0 */
  function Decimal(n: nat): string {
    if n < 10 then [Digit(n)] else Decimal(n / 10) + [Digit(n % 10)]
  }

  /** What a string of digits says: each counts for itself, and a place to the left ten times as much. */
  function ValueOf(s: string): int {
    if s == "" then 0
    else 10 * ValueOf(s[..|s| - 1]) + (s[|s| - 1] as int - '0' as int)
  }

  /** The numeral has digits only, none too many in front, and says n. */
  lemma {:induction false} DecimalReads(n: nat)
    ensures |Decimal(n)| > 0 && ValueOf(Decimal(n)) == n
    ensures forall c :: c in Decimal(n) ==> '0' <= c <= '9'
    ensures n > 0 ==> Decimal(n)[0] != '0'
  {
    var s := Decimal(n);
    if n < 10 {
      assert s[..|s| - 1] == "";
    } else {
      DecimalReads(n / 10);
      assert s[..|s| - 1] == Decimal(n / 10);
    }
  }

  lemma {:induction false} DecimalHasNoDash(n: nat)
    ensures |Decimal(n)| > 0 && '-' !in Decimal(n)
  {
    if n >= 10 {
      DecimalHasNoDash(n / 10);
    }
  }

  lemma {:induction false} DecimalInjective(a: nat, b: nat)
    requires Decimal(a) == Decimal(b)
    ensures a == b
  {
    var s := Decimal(a);
    assert s[|s| - 1] == Digit(a % 10) && s[|s| - 1] == Digit(b % 10);
    assert a % 10 == b % 10;
    if a < 10 {
      DecimalHasNoDash(b / 10);
      assert b < 10;
    } else {
      DecimalHasNoDash(a / 10);
      assert b >= 10;
      assert Decimal(a / 10) == s[..|s| - 1] == Decimal(b / 10);
      DecimalInjective(a / 10, b / 10);
    }
  }

  // ---------------------------------------------------------------- derived names

  function SvcRef(net: Ref): Ref {
    Ref(net.ns, net.name + SVC_POSTFIX)
  }

  function SetRef(net: Ref): Ref {
    Ref(net.ns, net.name + STS_POSTFIX)
  }

  function PodName(stsName: string, i: nat): string {
    stsName + "-" + Decimal(i)
  }

  function PodRef(net: Ref, i: nat): Ref {
    Ref(net.ns, PodName(net.name + STS_POSTFIX, i))
  }

  lemma ChildRefsInjective(a: Ref, b: Ref)
    ensures SvcRef(a) == SvcRef(b) ==> a == b
    ensures SetRef(a) == SetRef(b) ==> a == b
  {
    assert SvcRef(a).name[..|a.name|] == a.name && SvcRef(b).name[..|b.name|] == b.name;
    assert SetRef(a).name[..|a.name|] == a.name && SetRef(b).name[..|b.name|] == b.name;
  }

  /** The names as Kubernetes gets to see them. */
  lemma DerivedNames(ns: string, name: string, i: nat) returns (digits: string)
    ensures SvcRef(Ref(ns, name)) == Ref(ns, name + "-svc")
    ensures SetRef(Ref(ns, name)) == Ref(ns, name + "-sts")
    ensures PodRef(Ref(ns, name), i) == Ref(ns, name + "-sts-" + digits)
    ensures |digits| > 0 && ValueOf(digits) == i && (i > 0 ==> digits[0] != '0')
    ensures forall c :: c in digits ==> '0' <= c <= '9'
  {
    digits := Decimal(i);
    DecimalReads(i);
    assert name + "-sts" + "-" + digits == name + "-sts-" + digits;
  }

  /** The part before the last dash and the part after it, given that the latter has none. */
  lemma LastDash(p: string, d: string, q: string, e: string)
    requires p + "-" + d == q + "-" + e && '-' !in d && '-' !in e
    ensures p == q && d == e
  {
    var s, t := p + "-" + d, q + "-" + e;
    assert s[|p|] == '-' && t[|q|] == '-';
    assert |p| == |q|;
    assert p == s[..|p|] && q == t[..|q|];
    assert d == s[|p| + 1..] && e == t[|q| + 1..];
  }

  /** No two (network, ordinal) pairs share a pod, whatever characters the names contain. */
  lemma PodRefInjective(a: Ref, i: nat, b: Ref, j: nat)
    requires PodRef(a, i) == PodRef(b, j)
    ensures a == b && i == j
  {
    DecimalHasNoDash(i);
    DecimalHasNoDash(j);
    LastDash(SetRef(a).name, Decimal(i), SetRef(b).name, Decimal(j));
    ChildRefsInjective(a, b);
    DecimalInjective(i, j);
  }

  // ---------------------------------------------------------------- queue keys

  /** cache.MetaNamespaceKeyFunc */
  function MetaKey(ref: Ref): string {
    if ref.ns != "" then ref.ns + "/" + ref.name else ref.name
  }

  /** strings.Split(s, "/") */
  function Split(s: string): (parts: seq<string>)
    ensures |parts| > 0
  {
    if s == "" then [""]
    else
      var rest := Split(s[1..]);
      if s[0] == '/' then [""] + rest else [[s[0]] + rest[0]] + rest[1..]
  }

  /** cache.SplitMetaNamespaceKey; None stands for its error. */
  function SplitKey(key: string): Option<Ref> {
    var parts := Split(key);
    if |parts| == 1 then Some(Ref("", parts[0]))
    else if |parts| == 2 then Some(Ref(parts[0], parts[1]))
    else None
  }

  function Slashes(s: string): nat {
    if s == "" then 0 else (if s[0] == '/' then 1 else 0) + Slashes(s[1..])
  }

  /** The parts are slash-free and joining them gives the string back. */
  function Join(parts: seq<string>): string
    requires |parts| > 0
  {
    if |parts| == 1 then parts[0] else parts[0] + "/" + Join(parts[1..])
  }

  lemma {:induction false} SplitParts(s: string)
    ensures |Split(s)| == Slashes(s) + 1
    ensures forall p :: p in Split(s) ==> '/' !in p
    ensures Join(Split(s)) == s
  {
    if s != "" {
      SplitParts(s[1..]);
      var rest := Split(s[1..]);
      if s[0] == '/' {
        assert Split(s)[1..] == rest;
      } else {
        assert Split(s)[1..] == rest[1..];
        assert Split(s)[0] == [s[0]] + rest[0];
      }
      assert s == [s[0]] + s[1..];
    }
  }

  lemma {:induction false} SlashFree(s: string)
    ensures Slashes(s) == 0 <==> '/' !in s
  {
    if s != "" {
      SlashFree(s[1..]);
      assert s == [s[0]] + s[1..];
    }
  }

  /** doRecon rejects a key exactly when it holds more than one slash. */
  lemma SplitKeyFails(key: string)
    ensures SplitKey(key) == None <==> Slashes(key) > 1
  {
    SplitParts(key);
  }

  /** Neither part has a slash, as Kubernetes demands. */
  predicate Plain(ref: Ref) {
    '/' !in ref.ns && '/' !in ref.name
  }

  lemma SplitMetaKey(ref: Ref)
    requires Plain(ref)
    ensures SplitKey(MetaKey(ref)) == Some(ref)
  {
    SplitSlashFree(ref.name);
    if ref.ns != "" {
      SplitAtSlash(ref.ns, ref.name);
    }
  }

  lemma {:induction false} SplitSlashFree(s: string)
    requires '/' !in s
    ensures Split(s) == [s]
  {
    if s != "" {
      SplitSlashFree(s[1..]);
      assert s == [s[0]] + s[1..];
    }
  }

  lemma {:induction false} SplitAtSlash(a: string, b: string)
    requires '/' !in a
    ensures Split(a + "/" + b) == [a] + Split(b)
  {
    var s := a + "/" + b;
    if a == "" {
      assert s[1..] == b;
    } else {
      SplitAtSlash(a[1..], b);
      assert s[1..] == a[1..] + "/" + b;
      assert a == [a[0]] + a[1..];
    }
  }

  /** What keys look like, and what they are read as. */
  lemma KeyForms(ns: string, name: string)
    requires '/' !in ns && '/' !in name
    ensures ns != "" ==> MetaKey(Ref(ns, name)) == ns + "/" + name
    ensures MetaKey(Ref("", name)) == name
    ensures SplitKey(ns + "/" + name) == Some(Ref(ns, name))
    ensures SplitKey(name) == Some(Ref("", name))
  {
    SplitSlashFree(name);
    SplitAtSlash(ns, name);
  }

  /** A key leads back to the object it was made from exactly when neither part has a slash. */
  lemma KeyRoundTrip(ref: Ref)
    ensures SplitKey(MetaKey(ref)) == Some(ref) <==> Plain(ref)
  {
    if SplitKey(MetaKey(ref)) == Some(ref) {
      SplitParts(MetaKey(ref));
    } else if Plain(ref) {
      SplitMetaKey(ref);
    }
  }

  /**
    The namespace lister looks an object up under namespace + "/" + name; the informer stored it
    under MetaKey. The two agree exactly for namespaced objects.
   */
  function ListerKey(ref: Ref): string {
    ref.ns + "/" + ref.name
  }

  lemma ListerFindsNamespaced(ref: Ref)
    ensures ListerKey(ref) == MetaKey(ref) <==> ref.ns != ""
  {
    assert ref.ns == "" ==> |ListerKey(ref)| == |MetaKey(ref)| + 1;
  }
}
