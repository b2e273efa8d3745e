/** The values the intent broker works on. */
module Types {

  datatype Option<+T> = None | Some(value: T)

  /** A point in time; durations are differences of instants. */
  type Instant = nat

  datatype ServiceId = ServiceId(name: string, version: string)

  datatype ExecutionLocality = Local | Cloud

  datatype ServiceConfiguration = ServiceConfiguration(id: ServiceId, url: string, locality: ExecutionLocality)

  datatype IntentKind = Discover | Inspect | Read | Write | Invoke | Subscribe

  datatype IntentConfiguration = IntentConfiguration(namespace: string, intent: IntentKind)

  /** Time since an earlier instant, zero if it is not earlier. */
  function Since(now: Instant, earlier: Instant): nat {
    if now >= earlier then now - earlier else 0
  }

  // ----- the reserved namespaces -----

  function LowerAscii(c: char): char {
    if 'A' <= c <= 'Z' then (c as int - 'A' as int + 'a' as int) as char else c
  }

  predicate EqualIgnoreAsciiCase(a: string, b: string) {
    |a| == |b| && forall i | 0 <= i < |a| :: LowerAscii(a[i]) == LowerAscii(b[i])
  }

  /** `system`, or anything that starts with `system.`, in any ASCII case. */
  predicate IsSystemNamespace(namespace: string) {
    || EqualIgnoreAsciiCase(namespace, "system")
    || (|namespace| >= |"system."| && EqualIgnoreAsciiCase(namespace[..|"system."|], "system."))
  }

  const SYSTEM_REGISTRY_NAMESPACE := "system.registry"

  /** The part of a dotted name before its first dot, or all of it. */
  function FirstSegment(name: string): (r: string)
    ensures r <= name && '.' !in r
    ensures r == name || name[|r|] == '.'
  {
    if name == "" || name[0] == '.' then "" else [name[0]] + FirstSegment(name[1..])
  }

  /** The word "system", each letter small or capital. */
  predicate SpellsSystem(word: string) {
    && |word| == 6
    && word[0] in "sS" && word[1] in "yY" && word[2] in "sS" && word[3] in "tT" && word[4] in "eE" && word[5] in "mM"
  }

  lemma LowerIs(c: char, small: char, capital: char)
    requires 'a' <= small <= 'z' && capital as int == small as int - 'a' as int + 'A' as int
    ensures LowerAscii(c) == LowerAscii(small) <==> c == small || c == capital
  {}

  lemma LettersOfSystem(word: string)
    requires |word| >= 6
    ensures EqualIgnoreAsciiCase(word[..6], "system") <==> SpellsSystem(word[..6])
  {
    var w := "system";
    LowerIs(word[0], 's', 'S');
    LowerIs(word[1], 'y', 'Y');
    LowerIs(word[2], 's', 'S');
    LowerIs(word[3], 't', 'T');
    LowerIs(word[4], 'e', 'E');
    LowerIs(word[5], 'm', 'M');
    assert w[0] == 's' && w[1] == 'y' && w[2] == 's' && w[3] == 't' && w[4] == 'e' && w[5] == 'm';
  }

  lemma PrefixWithDot(name: string)
    requires |name| >= 7
    ensures EqualIgnoreAsciiCase(name[..7], "system.") <==> EqualIgnoreAsciiCase(name[..6], "system") && name[6] == '.'
  {
    assert "system."[..6] == "system" && "system."[6] == '.';
    forall i | 0 <= i < 6 ensures name[..7][i] == name[..6][i] && "system."[i] == "system"[i] {}
    if EqualIgnoreAsciiCase(name[..7], "system.") {
      assert LowerAscii(name[..7][6]) == LowerAscii("system."[6]);
    }
  }

  /** A namespace is reserved exactly when its first segment is the word "system" in some
      mixture of small and capital letters. */
  lemma ReservedIff(namespace: string)
    ensures IsSystemNamespace(namespace) <==> SpellsSystem(FirstSegment(namespace))
  {
    var segment := FirstSegment(namespace);
    if |namespace| >= 6 {
      LettersOfSystem(namespace);
      assert |namespace| == 6 ==> namespace[..6] == namespace;
      if |namespace| >= 7 { PrefixWithDot(namespace); }
      if SpellsSystem(namespace[..6]) {
        assert forall i | 0 <= i < 6 :: namespace[..6][i] == namespace[i] && namespace[i] != '.';
        assert |segment| >= 6;
      }
    }
  }

  lemma SystemRegistryIsReserved()
    ensures IsSystemNamespace(SYSTEM_REGISTRY_NAMESPACE)
  {}
}
