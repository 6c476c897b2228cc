/** Names of command files: publishing, recovery, and the two recognisers that must accept
    exactly the names those operations can make. */
module SiblingNames {
  import opened Text

  const MARKER := "-recovered-"
  const EXTENSION := ".json"
  const HASH_LENGTH: nat := 64
  const SEQUENCE_WIDTH: nat := 20

  /** What both sides derive from a request id: the SHA-256 key and the legacy safe name. */
  datatype Keys = Keys(hashed: string, legacy: string)

  predicate ValidKeys(k: Keys) {
    |k.hashed| == HASH_LENGTH && IsLowerHex(k.hashed)
  }

  /** One `-recovered-<milliseconds>-<hex>` suffix. */
  datatype Recovery = Recovery(digits: string, hex: string)

  predicate WellFormed(v: Recovery) {
    10 <= |v.digits| <= 20 && IsDigits(v.digits) && |v.hex| == 8 && IsLowerHex(v.hex)
  }

  function Suffix(v: Recovery): string {
    v.digits + "-" + v.hex
  }

  function Recover(stem: string, v: Recovery): string {
    stem + MARKER + Suffix(v)
  }

  function RecoverAll(stem: string, vs: seq<Recovery>): string {
    if vs == [] then stem else Recover(RecoverAll(stem, vs[..|vs| - 1]), vs[|vs| - 1])
  }

  predicate RegularStem(stem: string, k: Keys) {
    || stem == k.hashed
    || stem == k.legacy
    || (&& |stem| == SEQUENCE_WIDTH + 1 + HASH_LENGTH
        && IsDigits(stem[..SEQUENCE_WIDTH])
        && stem[SEQUENCE_WIDTH] == '-'
        && stem[SEQUENCE_WIDTH + 1..] == k.hashed)
  }

  /** The stems both recognisers are meant to accept. */
  ghost predicate SiblingStem(stem: string, k: Keys) {
    exists base: string, vs: seq<Recovery> ::
      RegularStem(base, k) && (forall i :: 0 <= i < |vs| ==> WellFormed(vs[i])) && stem == RecoverAll(base, vs)
  }

  ghost predicate SiblingName(name: string, k: Keys) {
    |name| >= |EXTENSION| && name[|name| - |EXTENSION|..] == EXTENSION
    && SiblingStem(name[..|name| - |EXTENSION|], k)
  }

  // str.rpartition and the length-two result of str.split

  predicate OccursAt(s: string, pattern: string, i: int) {
    0 <= i && i + |pattern| <= |s| && s[i..i + |pattern|] == pattern
  }

  /** Position of the last occurrence, or -1. */
  function LastIndex(s: string, pattern: string): (r: int)
    requires pattern != []
    ensures -1 <= r
    ensures r >= 0 ==> OccursAt(s, pattern, r)
    ensures forall i :: i > r ==> !OccursAt(s, pattern, i)
  {
    LastIndexUpTo(s, pattern, |s|)
  }

  function LastIndexUpTo(s: string, pattern: string, n: nat): (r: int)
    requires pattern != []
    requires forall i :: i >= n ==> !OccursAt(s, pattern, i)
    ensures -1 <= r
    ensures r >= 0 ==> OccursAt(s, pattern, r)
    ensures forall i :: i > r ==> !OccursAt(s, pattern, i)
  {
    if n == 0 then -1
    else if OccursAt(s, pattern, n - 1) then n - 1
    else LastIndexUpTo(s, pattern, n - 1)
  }

  /** The text splits at its only dash, `d`, into a digit run and a hex tag. */
  predicate SplitsAt(suffix: string, d: nat) {
    && d < |suffix| && suffix[d] == '-'
    && (forall i :: 0 <= i < |suffix| && i != d ==> suffix[i] != '-')
    && WellFormed(Recovery(suffix[..d], suffix[d + 1..]))
  }

  ghost predicate SplitsAsRecovery(suffix: string) {
    exists d: nat :: SplitsAt(suffix, d)
  }

  lemma SplitOfSuffix(v: Recovery)
    requires WellFormed(v)
    ensures SplitsAsRecovery(Suffix(v))
  {
    var d, s := |v.digits|, Suffix(v);
    assert s[d] == '-' && s[..d] == v.digits && s[d + 1..] == v.hex;
    assert SplitsAt(s, d);
  }

  /** No later occurrence of the marker can start inside a well-formed recovery. */
  lemma MarkerOfRecovery(stem: string, v: Recovery)
    requires WellFormed(v)
    ensures LastIndex(Recover(stem, v), MARKER) == |stem|
  {
    var s, n := Recover(stem, v), |stem|;
    assert s == stem + (MARKER + Suffix(v));
    assert OccursAt(s, MARKER, n);
    forall i | i > n ensures !OccursAt(s, MARKER, i) {
      NoLaterMarker(stem, v, i);
    }
  }

  lemma NoLaterMarker(stem: string, v: Recovery, i: int)
    requires WellFormed(v) && i > |stem|
    ensures !OccursAt(Recover(stem, v), MARKER, i)
  {
    var s, tail := Recover(stem, v), MARKER + Suffix(v);
    assert s == stem + tail;
    if i + |MARKER| <= |s| {
      assert s[i..i + |MARKER|][0] == tail[i - |stem|] && s[i..i + |MARKER|][1] == tail[i + 1 - |stem|];
      assert MARKER[0] == '-' && MARKER[1] == 'r';
      assert forall k :: |MARKER| <= k < |tail| ==> tail[k] == Suffix(v)[k - |MARKER|] && tail[k] != 'r';
    }
  }

  lemma CutsAt(s: string, pattern: string, i: int)
    requires OccursAt(s, pattern, i)
    ensures s == s[..i] + pattern + s[i + |pattern|..]
  {
  }

  lemma SplitIsSuffix(suffix: string) returns (v: Recovery)
    requires SplitsAsRecovery(suffix)
    ensures WellFormed(v) && suffix == Suffix(v)
  {
    var d: nat :| SplitsAt(suffix, d);
    v := Recovery(suffix[..d], suffix[d + 1..]);
  }

  /** With the last marker cut off, a name whose rest splits is a recovered name. */
  lemma CutIsRecovery(s: string) returns (v: Recovery)
    requires var i := LastIndex(s, MARKER); i >= 0 && SplitsAsRecovery(s[i + |MARKER|..])
    ensures WellFormed(v) && s == Recover(s[..LastIndex(s, MARKER)], v)
  {
    var i := LastIndex(s, MARKER);
    CutsAt(s, MARKER, i);
    v := SplitIsSuffix(s[i + |MARKER|..]);
  }

  /** A recovered name is cut exactly where it was extended. */
  lemma RecoveryIsCut(stem: string, v: Recovery)
    requires WellFormed(v)
    ensures var s := Recover(stem, v);
      LastIndex(s, MARKER) == |stem| && s[..|stem|] == stem && SplitsAsRecovery(s[|stem| + |MARKER|..])
  {
    MarkerOfRecovery(stem, v);
    SplitOfSuffix(v);
    assert Recover(stem, v)[|stem| + |MARKER|..] == Suffix(v);
  }

  /** One more recovery of a sibling is a sibling, and only siblings recover to one. */
  lemma RecoverySibling(stem: string, v: Recovery, k: Keys)
    requires WellFormed(v)
    requires !RegularStem(Recover(stem, v), k)
    ensures SiblingStem(Recover(stem, v), k) <==> SiblingStem(stem, k)
  {
    var s := Recover(stem, v);
    if SiblingStem(stem, k) {
      var base, vs :| RegularStem(base, k) && (forall i :: 0 <= i < |vs| ==> WellFormed(vs[i])) && stem == RecoverAll(base, vs);
      assert (vs + [v])[..|vs|] == vs;
      assert s == RecoverAll(base, vs + [v]);
    }
    if SiblingStem(s, k) {
      var base, vs :| RegularStem(base, k) && (forall i :: 0 <= i < |vs| ==> WellFormed(vs[i])) && s == RecoverAll(base, vs);
      assert vs != [];
      var before, last := RecoverAll(base, vs[..|vs| - 1]), vs[|vs| - 1];
      MarkerOfRecovery(stem, v);
      MarkerOfRecovery(before, last);
      assert before == s[..|before|] && stem == s[..|stem|];
    }
  }

  /** A stem without a well-formed recovery is a sibling only when it is regular. */
  lemma PlainSibling(stem: string, k: Keys)
    requires forall base: string, v: Recovery :: WellFormed(v) ==> stem != Recover(base, v)
    ensures SiblingStem(stem, k) <==> RegularStem(stem, k)
  {
    if RegularStem(stem, k) {
      assert stem == RecoverAll(stem, []);
    }
    if SiblingStem(stem, k) {
      var base, vs :| RegularStem(base, k) && (forall i :: 0 <= i < |vs| ==> WellFormed(vs[i])) && stem == RecoverAll(base, vs);
      LastRecovery(base, vs);
    }
  }

  lemma LastRecovery(base: string, vs: seq<Recovery>)
    requires forall i :: 0 <= i < |vs| ==> WellFormed(vs[i])
    ensures vs == [] || exists b: string, v: Recovery :: WellFormed(v) && RecoverAll(base, vs) == Recover(b, v)
  {
    if vs != [] {
      var v := vs[|vs| - 1];
      assert WellFormed(v) && RecoverAll(base, vs) == Recover(RecoverAll(base, vs[..|vs| - 1]), v);
    }
  }

  /** `-` separated pieces of a text; the recognisers ask for exactly two. */
  method SplitRecovery(suffix: string) returns (ok: bool)
    ensures ok <==> SplitsAsRecovery(suffix)
  {
    var d := 0;
    while d < |suffix| && suffix[d] != '-'
      invariant 0 <= d <= |suffix|
      invariant forall i :: 0 <= i < d ==> suffix[i] != '-'
    {
      d := d + 1;
    }
    if d == |suffix| {
      return false;
    }
    var e := d + 1;
    while e < |suffix| && suffix[e] != '-'
      invariant d < e <= |suffix|
      invariant forall i :: d < i < e ==> suffix[i] != '-'
    {
      e := e + 1;
    }
    ok := e == |suffix| && WellFormed(Recovery(suffix[..d], suffix[d + 1..]));
    assert ok <==> SplitsAt(suffix, d);
  }

  /** The Gateway's recogniser: the regular test comes first in every round. */
  method GatewayMatches(name: string, k: Keys) returns (ok: bool)
    ensures ok <==> SiblingName(name, k)
  {
    if |name| < |EXTENSION| || name[|name| - |EXTENSION|..] != EXTENSION {
      return false;
    }
    var stem := name[..|name| - |EXTENSION|];
    ghost var whole := stem;
    while true
      invariant SiblingStem(whole, k) <==> SiblingStem(stem, k)
      decreases |stem|
    {
      if RegularStem(stem, k) {
        assert stem == RecoverAll(stem, []);
        return true;
      }
      var i := LastIndex(stem, MARKER);
      if i < 0 {
        NotRecovered(stem, k);
        return false;
      }
      var splits := SplitRecovery(stem[i + |MARKER|..]);
      if !splits {
        NotRecovered(stem, k);
        return false;
      }
      var v := CutIsRecovery(stem);
      RecoverySibling(stem[..i], v, k);
      stem := stem[..i];
    }
  }

  lemma NotRecovered(stem: string, k: Keys)
    requires !RegularStem(stem, k)
    requires var i := LastIndex(stem, MARKER); i < 0 || !SplitsAsRecovery(stem[i + |MARKER|..])
    ensures !SiblingStem(stem, k)
  {
    forall base: string, v: Recovery | WellFormed(v) ensures stem != Recover(base, v) {
      RecoveryIsCut(base, v);
    }
    PlainSibling(stem, k);
  }

  /** The Helper's recogniser: one regular test before the loop and one after each cut. */
  method HelperMatches(name: string, k: Keys) returns (ok: bool)
    ensures ok <==> SiblingName(name, k)
  {
    if |name| < |EXTENSION| || name[|name| - |EXTENSION|..] != EXTENSION {
      return false;
    }
    var stem := name[..|name| - |EXTENSION|];
    ghost var whole := stem;
    if RegularStem(stem, k) {
      assert stem == RecoverAll(stem, []);
      return true;
    }
    while true
      invariant !RegularStem(stem, k)
      invariant SiblingStem(whole, k) <==> SiblingStem(stem, k)
      decreases |stem|
    {
      var i := LastIndex(stem, MARKER);
      if i < 0 {
        NotRecovered(stem, k);
        return false;
      }
      var splits := SplitRecovery(stem[i + |MARKER|..]);
      if !splits {
        NotRecovered(stem, k);
        return false;
      }
      var v := CutIsRecovery(stem);
      RecoverySibling(stem[..i], v, k);
      stem := stem[..i];
      if RegularStem(stem, k) {
        assert stem == RecoverAll(stem, []);
        return true;
      }
    }
  }

  /** command_request_filename. */
  function CommandName(sequence: nat, k: Keys): string {
    CommandStem(sequence, k) + EXTENSION
  }

  function CommandStem(sequence: nat, k: Keys): string {
    if sequence > 0 then Padded(sequence, SEQUENCE_WIDTH) + "-" + k.hashed else k.hashed
  }

  /** _return_processing_request: a taken name gets one more suffix before its extension. */
  function RecoveredName(name: string, milliseconds: nat, tag: string): string
    requires |name| >= |EXTENSION|
  {
    Recover(name[..|name| - |EXTENSION|], Recovery(Decimal(milliseconds), tag)) + EXTENSION
  }

  predicate RecoveryStamp(milliseconds: nat, tag: string) {
    Pow10(9) <= milliseconds < Pow10(20) && |tag| == 8 && IsLowerHex(tag)
  }

  /** Any published name, after any number of recoveries, is recognised for its request. */
  lemma PublishedNameIsSibling(sequence: nat, k: Keys)
    requires ValidKeys(k) && sequence < Pow10(SEQUENCE_WIDTH)
    ensures SiblingName(CommandName(sequence, k), k)
  {
    PaddedFits(sequence, SEQUENCE_WIDTH);
    var name, stem := CommandName(sequence, k), CommandStem(sequence, k);
    assert name == stem + EXTENSION && name[..|stem|] == stem && name[|stem|..] == EXTENSION;
    if sequence > 0 {
      assert stem[..SEQUENCE_WIDTH] == Padded(sequence, SEQUENCE_WIDTH);
      assert stem[SEQUENCE_WIDTH + 1..] == k.hashed;
    }
    assert RegularStem(stem, k);
    assert stem == RecoverAll(stem, []);
  }

  lemma RecoveredNameIsSibling(name: string, milliseconds: nat, tag: string, k: Keys)
    requires SiblingName(name, k) && RecoveryStamp(milliseconds, tag)
    ensures SiblingName(RecoveredName(name, milliseconds, tag), k)
  {
    var v := Recovery(Decimal(milliseconds), tag);
    assert WellFormed(v) by {
      DecimalFits(milliseconds, 9);
      DecimalFits(milliseconds, 20);
    }
    var stem := name[..|name| - |EXTENSION|];
    var base, vs :| RegularStem(base, k) && (forall i :: 0 <= i < |vs| ==> WellFormed(vs[i])) && stem == RecoverAll(base, vs);
    assert (vs + [v])[..|vs|] == vs;
    var stem' := Recover(stem, v);
    assert stem' == RecoverAll(base, vs + [v]);
    var name' := RecoveredName(name, milliseconds, tag);
    assert name' == stem' + EXTENSION && name'[..|stem'|] == stem' && name'[|stem'|..] == EXTENSION;
  }

  /** A sequence number of more than twenty digits makes a name neither side recognises. */
  lemma OversizedSequenceIsUnrecognised(sequence: nat, k: Keys)
    requires ValidKeys(k) && CommandStem(sequence, k) != k.legacy && sequence > 0
    ensures SiblingName(CommandName(sequence, k), k) <==> sequence < Pow10(SEQUENCE_WIDTH)
  {
    PaddedFits(sequence, SEQUENCE_WIDTH);
    if sequence < Pow10(SEQUENCE_WIDTH) {
      PublishedNameIsSibling(sequence, k);
    } else {
      var stem := CommandStem(sequence, k);
      var name := CommandName(sequence, k);
      assert name == stem + EXTENSION && name[..|stem|] == stem;
      assert |stem| > SEQUENCE_WIDTH + 1 + HASH_LENGTH;
      assert !RegularStem(stem, k);
      forall base: string, v: Recovery | WellFormed(v) ensures stem != Recover(base, v) {
        NoMarkerInCommandStem(sequence, k);
        RecoveryIsCut(base, v);
      }
      PlainSibling(stem, k);
    }
  }

  lemma NoMarkerInCommandStem(sequence: nat, k: Keys)
    requires ValidKeys(k)
    ensures LastIndex(CommandStem(sequence, k), MARKER) < 0
  {
    var stem := CommandStem(sequence, k);
    forall i | 0 <= i < |stem| ensures stem[i] != 'r' {
    }
    assert MARKER[1] == 'r';
    forall i | 0 <= i && i + |MARKER| <= |stem| ensures !OccursAt(stem, MARKER, i) {
      assert stem[i + 1] == stem[i..i + |MARKER|][1];
    }
  }
}
