/**
 The names of frame files: a flat, reversible, versioned encoding of (trial, camera, step).

 Names are the bytes of their UTF-8 form. Which byte sequences are valid UTF-8 is a parameter;
 percent-encoding is that of section 2.1 of RFC 3986.
 */
module Frames {
  import opened Basics

  type Bytes = seq<byte>

  datatype Frame = Frame(trial: Bytes, camera: Bytes, t: int)

  const TILDE: byte := 0x7E
  const PERCENT: byte := 0x25
  const UNDERSCORE: byte := 0x5F
  const MINUS: byte := 0x2D
  const PREFIX: Bytes := [0x7E, 0x66, 0x31, 0x7E]  // ~f1~
  const SUFFIX: Bytes := [0x2E, 0x6E, 0x70, 0x79]  // .npy

  // ---------------------------------------------------------------- components

  predicate IsLowerAlpha(b: byte) {
    0x61 <= b <= 0x7A
  }

  predicate IsDigit(b: byte) {
    0x30 <= b <= 0x39
  }

  predicate IsSafe(b: byte) {
    IsLowerAlpha(b) || IsDigit(b) || b == 0x2E || b == UNDERSCORE || b == MINUS
  }

  function HexDigit(n: int): byte
    requires 0 <= n < 16
  {
    if n < 10 then (0x30 + n) as byte else (0x41 + n - 10) as byte
  }

  /** The value of a hexadecimal digit of either case. */
  function HexValue(b: byte): Option<int> {
    if IsDigit(b) then Some(b as int - 0x30)
    else if 0x41 <= b <= 0x46 then Some(b as int - 0x41 + 10)
    else if 0x61 <= b <= 0x66 then Some(b as int - 0x61 + 10)
    else None
  }

  function EncodeByte(b: byte): Bytes {
    if IsSafe(b) then [b] else [PERCENT, HexDigit(b as int / 16), HexDigit(b as int % 16)]
  }

  function Encode(s: Bytes): Bytes {
    if s == [] then [] else EncodeByte(s[0]) + Encode(s[1..])
  }

  /** Lenient percent-decoding: what is not an escape stays. */
  function Unquote(s: Bytes): Bytes
    decreases |s|
  {
    if s == [] then []
    else if s[0] == PERCENT && |s| >= 3 && HexValue(s[1]).Some? && HexValue(s[2]).Some? then
      [Join(HexValue(s[1]).value, HexValue(s[2]).value)] + Unquote(s[3..])
    else [s[0]] + Unquote(s[1..])
  }

  function Join(high: int, low: int): byte {
    ((high * 16 + low) % 256) as byte
  }

  /** ASCII case folding, as a case-insensitive filesystem compares names. */
  function Fold(s: Bytes): (r: Bytes)
    ensures |r| == |s|
  {
    seq(|s|, i requires 0 <= i < |s| => FoldByte(s[i]))
  }

  function FoldByte(b: byte): byte {
    if 0x41 <= b <= 0x5A then b + 0x20 else b
  }

  lemma FoldConcat(a: Bytes, b: Bytes)
    ensures Fold(a + b) == Fold(a) + Fold(b)
  {
  }

  lemma HexRoundTrip(b: byte, fold: bool)
    ensures
      var high, low := HexDigit(b as int / 16), HexDigit(b as int % 16);
      var h, l := if fold then FoldByte(high) else high, if fold then FoldByte(low) else low;
      HexValue(h).Some? && HexValue(l).Some? && Join(HexValue(h).value, HexValue(l).value) == b
  {
  }

  function Folded(s: Bytes, fold: bool): Bytes {
    if fold then Fold(s) else s
  }

  /** Decoding undoes encoding, even after case folding. */
  lemma {:induction false} UnquoteEncode(s: Bytes, fold: bool)
    ensures Unquote(Folded(Encode(s), fold)) == s
  {
    if s != [] {
      var b, rest := s[0], Encode(s[1..]);
      UnquoteEncode(s[1..], fold);
      FoldConcat(EncodeByte(b), rest);
      HexRoundTrip(b, fold);
      var e := Folded(Encode(s), fold);
      assert e == Folded(EncodeByte(b), fold) + Folded(rest, fold);
      if IsSafe(b) {
        assert e[0] == b && e[1..] == Folded(rest, fold);
      } else {
        assert e[0] == PERCENT && e[3..] == Folded(rest, fold);
      }
      assert s == [b] + s[1..];
    }
  }

  predicate Plain(s: Bytes) {
    forall i :: 0 <= i < |s| ==> s[i] != TILDE
  }

  lemma {:induction false} EncodeIsPlain(s: Bytes, fold: bool)
    ensures Plain(Folded(Encode(s), fold))
  {
    if s != [] {
      EncodeIsPlain(s[1..], fold);
      FoldConcat(EncodeByte(s[0]), Encode(s[1..]));
    }
  }

  // ---------------------------------------------------------------- step numbers

  function Digits(n: nat): Bytes {
    if n < 10 then [(0x30 + n) as byte] else Digits(n / 10) + [(0x30 + n % 10) as byte]
  }

  function Padded(digits: Bytes, width: nat): Bytes
    decreases width - |digits|
  {
    if |digits| >= width then digits else Padded([0x30] + digits, width)
  }

  /** The format :06d, whose width counts the sign. */
  function Format(t: int): Bytes {
    if t < 0 then [MINUS] + Padded(Digits(-t), 5) else Padded(Digits(t), 6)
  }

  function Value(digits: Bytes): int {
    if digits == [] then 0
    else Value(digits[..|digits| - 1]) * 10 + (digits[|digits| - 1] as int - 0x30)
  }

  predicate AllDigits(s: Bytes) {
    forall i :: 0 <= i < |s| ==> IsDigit(s[i])
  }

  /** An optional minus sign and at least one digit. */
  predicate IsNumber(s: Bytes) {
    s != [] && if s[0] == MINUS then |s| > 1 && AllDigits(s[1..]) else AllDigits(s)
  }

  function ParseInt(s: Bytes): int {
    if s != [] && s[0] == MINUS then -Value(s[1..]) else Value(s)
  }

  lemma {:induction false} DigitsRoundTrip(n: nat)
    ensures Digits(n) != [] && AllDigits(Digits(n)) && Value(Digits(n)) == n
  {
    if n < 10 {
      assert Digits(n)[..0] == [];
    } else {
      DigitsRoundTrip(n / 10);
      var front, last := Digits(n / 10), (0x30 + n % 10) as byte;
      assert (front + [last])[..|front|] == front;
    }
  }

  lemma {:induction false} ZeroInFront(digits: Bytes)
    ensures Value([0x30] + digits) == Value(digits)
  {
    if digits == [] {
      assert [0x30] + digits == [0x30 as byte] && [0x30 as byte][..0] == [];
    } else {
      var all := [0x30] + digits;
      assert all[..|all| - 1] == [0x30] + digits[..|digits| - 1];
      ZeroInFront(digits[..|digits| - 1]);
    }
  }

  lemma {:induction false} PaddedRoundTrip(digits: Bytes, width: nat)
    requires digits != [] && AllDigits(digits)
    ensures Padded(digits, width) != [] && AllDigits(Padded(digits, width)) && Value(Padded(digits, width)) == Value(digits)
    decreases width - |digits|
  {
    if |digits| < width {
      ZeroInFront(digits);
      PaddedRoundTrip([0x30] + digits, width);
    }
  }

  lemma FormatRoundTrip(t: int)
    ensures IsNumber(Format(t)) && ParseInt(Format(t)) == t
  {
    var n := if t < 0 then -t else t;
    DigitsRoundTrip(n);
    PaddedRoundTrip(Digits(n), if t < 0 then 5 else 6);
    if t < 0 {
      assert Format(t)[1..] == Padded(Digits(n), 5);
    }
  }

  lemma NumberIsNoUnderscore(s: Bytes)
    requires IsNumber(s)
    ensures forall i :: 0 <= i < |s| ==> s[i] != UNDERSCORE && s[i] != TILDE && FoldByte(s[i]) == s[i]
  {
    forall i | 0 <= i < |s|
      ensures s[i] != UNDERSCORE && s[i] != TILDE && FoldByte(s[i]) == s[i]
    {
      if s[0] == MINUS && i > 0 {
        assert s[i] == s[1..][i - 1];
      }
    }
  }

  // ---------------------------------------------------------------- whole names

  function Assemble(trial: Bytes, camera: Bytes, number: Bytes): Bytes {
    PREFIX + trial + [TILDE] + camera + [UNDERSCORE] + number + SUFFIX
  }

  function Filename(f: Frame): Bytes {
    Assemble(Encode(f.trial), Encode(f.camera), Format(f.t))
  }

  datatype Parts = Parts(trial: Bytes, camera: Bytes, number: Bytes)

  /** What the name's pattern asks of its groups. */
  predicate Groups(p: Parts) {
    Plain(p.trial) && Plain(p.camera) && IsNumber(p.number)
  }

  function IndexOf(s: Bytes, b: byte): (i: nat)
    ensures i <= |s| && (i < |s| ==> s[i] == b) && forall j :: 0 <= j < i ==> s[j] != b
  {
    if s == [] || s[0] == b then 0 else 1 + IndexOf(s[1..], b)
  }

  function LastIndexOf(s: Bytes, b: byte): (i: int)
    ensures -1 <= i < |s| && (i >= 0 ==> s[i] == b) && forall j :: i < j < |s| ==> s[j] != b
  {
    if s == [] then -1
    else if s[|s| - 1] == b then |s| - 1
    else LastIndexOf(s[..|s| - 1], b)
  }

  /** Splits a name the way its pattern matches it in full: the step follows the last underscore. */
  function Match(name: Bytes): Option<Parts> {
    if |name| < 8 || name[..4] != PREFIX || name[|name| - 4..] != SUFFIX then None
    else
      var body := name[4..|name| - 4];
      var i := IndexOf(body, TILDE);
      if i == |body| then None
      else
        var rest := body[i + 1..];
        var j := LastIndexOf(rest, UNDERSCORE);
        if j < 0 then None
        else
          var p := Parts(body[..i], rest[..j], rest[j + 1..]);
          if Groups(p) then Some(p) else None
  }

  lemma Cut(a: Bytes, c: byte, b: Bytes)
    ensures var s := a + [c] + b; s[..|a|] == a && s[|a|] == c && s[|a| + 1..] == b
  {
  }

  /** The first occurrence of `c` is where it was put after a stretch without it. */
  lemma FirstAfter(a: Bytes, c: byte, b: Bytes)
    requires forall i :: 0 <= i < |a| ==> a[i] != c
    ensures IndexOf(a + [c] + b, c) == |a|
  {
    var s := a + [c] + b;
    hide IndexOf;
    Cut(a, c, b);
    assert forall k :: 0 <= k < |a| ==> s[k] == a[k];
  }

  lemma LastBefore(a: Bytes, c: byte, b: Bytes)
    requires forall i :: 0 <= i < |b| ==> b[i] != c
    ensures LastIndexOf(a + [c] + b, c) == |a|
  {
    var s := a + [c] + b;
    hide LastIndexOf;
    Cut(a, c, b);
    assert forall k :: |a| < k < |s| ==> s[k] == b[k - |a| - 1];
  }

  lemma Wrapped(body: Bytes)
    ensures
      var name := PREFIX + body + SUFFIX;
      |name| >= 8 && name[..4] == PREFIX && name[|name| - 4..] == SUFFIX && name[4..|name| - 4] == body
  {
  }

  lemma Unwrapped(name: Bytes)
    requires |name| >= 8 && name[..4] == PREFIX && name[|name| - 4..] == SUFFIX
    ensures name == PREFIX + name[4..|name| - 4] + SUFFIX
  {
  }

  function Body(p: Parts): Bytes {
    p.trial + [TILDE] + (p.camera + [UNDERSCORE] + p.number)
  }

  lemma AssembleBody(p: Parts)
    ensures Assemble(p.trial, p.camera, p.number) == PREFIX + Body(p) + SUFFIX
  {
  }

  /** The match is unique: it is found exactly when the name is made of such parts. */
  lemma MatchIsAssemble(name: Bytes, p: Parts)
    ensures Match(name) == Some(p) <==> Groups(p) && name == Assemble(p.trial, p.camera, p.number)
  {
    hide Assemble, Groups, IsNumber, Plain;
    AssembleBody(p);
    if Match(name) == Some(p) {
      MatchAssembles(name, p);
    }
    if Groups(p) && name == Assemble(p.trial, p.camera, p.number) {
      AssembleMatches(p);
    }
  }

  lemma MatchAssembles(name: Bytes, p: Parts)
    requires Match(name) == Some(p)
    ensures Groups(p) && name == PREFIX + Body(p) + SUFFIX
  {
    hide Groups, IsNumber, Plain;
    Unwrapped(name);
    var body := name[4..|name| - 4];
    var i := IndexOf(body, TILDE);
    var rest := body[i + 1..];
    var j := LastIndexOf(rest, UNDERSCORE);
    Rejoin(body, i);
    Rejoin(rest, j);
  }

  lemma Rejoin(s: Bytes, i: nat)
    requires i < |s|
    ensures s == s[..i] + [s[i]] + s[i + 1..]
  {
  }

  lemma AssembleMatches(p: Parts)
    requires Groups(p)
    ensures Match(PREFIX + Body(p) + SUFFIX) == Some(p)
  {
    var rest := p.camera + [UNDERSCORE] + p.number;
    Wrapped(Body(p));
    FirstAfter(p.trial, TILDE, rest);
    Cut(p.trial, TILDE, rest);
    NumberIsNoUnderscore(p.number);
    LastBefore(p.camera, UNDERSCORE, p.number);
    Cut(p.camera, UNDERSCORE, p.number);
    hide Groups, IsNumber, Plain, IndexOf, LastIndexOf;
  }

  function Parse(valid: Bytes -> bool, name: Bytes): Option<Frame> {
    var m := Match(name);
    if m.None? then None
    else
      var trial, camera := Unquote(m.value.trial), Unquote(m.value.camera);
      if !valid(trial) || !valid(camera) then None
      else
        var f := Frame(trial, camera, ParseInt(m.value.number));
        if Filename(f) != name then None else Some(f)
  }

  /** The name of a frame, with or without folding, splits into its folded parts. */
  lemma NameSplits(f: Frame, fold: bool)
    ensures
      Match(Folded(Filename(f), fold)) == Some(Parts(Folded(Encode(f.trial), fold), Folded(Encode(f.camera), fold), Format(f.t)))
  {
    var trial, camera, number := Encode(f.trial), Encode(f.camera), Format(f.t);
    EncodeIsPlain(f.trial, fold);
    EncodeIsPlain(f.camera, fold);
    FormatRoundTrip(f.t);
    FoldAssemble(trial, camera, number);
    hide Match, Assemble, IsNumber, Plain, Encode, Format, Fold;
    MatchIsAssemble(Folded(Filename(f), fold), Parts(Folded(trial, fold), Folded(camera, fold), number));
  }

  /** Folding a name folds its components, and nothing else of it changes. */
  lemma FoldAssemble(trial: Bytes, camera: Bytes, number: Bytes)
    requires IsNumber(number)
    ensures Fold(Assemble(trial, camera, number)) == Assemble(Fold(trial), Fold(camera), number)
  {
    NumberIsNoUnderscore(number);
    assert Fold(number) == number && Fold(PREFIX) == PREFIX && Fold(SUFFIX) == SUFFIX;
    assert Fold([TILDE]) == [TILDE] && Fold([UNDERSCORE]) == [UNDERSCORE];
    hide Fold, IsNumber;
    FoldConcat(PREFIX, trial);
    FoldConcat(PREFIX + trial, [TILDE]);
    FoldConcat(PREFIX + trial + [TILDE], camera);
    FoldConcat(PREFIX + trial + [TILDE] + camera, [UNDERSCORE]);
    FoldConcat(PREFIX + trial + [TILDE] + camera + [UNDERSCORE], number);
    FoldConcat(PREFIX + trial + [TILDE] + camera + [UNDERSCORE] + number, SUFFIX);
  }

  /** Frame names are a bijection onto the names that parse: */
  lemma ParseIsInverse(valid: Bytes -> bool, name: Bytes, f: Frame)
    ensures Parse(valid, name) == Some(f) <==> valid(f.trial) && valid(f.camera) && Filename(f) == name
  {
    if Filename(f) == name {
      NameSplits(f, false);
      UnquoteEncode(f.trial, false);
      UnquoteEncode(f.camera, false);
      FormatRoundTrip(f.t);
    }
  }

  /** and names stay distinct on a filesystem that ignores case. */
  lemma NamesStayDistinct(f: Frame, g: Frame)
    requires Fold(Filename(f)) == Fold(Filename(g))
    ensures f == g
  {
    NameSplits(f, true);
    NameSplits(g, true);
    UnquoteEncode(f.trial, true);
    UnquoteEncode(g.trial, true);
    UnquoteEncode(f.camera, true);
    UnquoteEncode(g.camera, true);
    FormatRoundTrip(f.t);
    FormatRoundTrip(g.t);
  }

  // ---------------------------------------------------------------- trial identifiers

  const SMALL_E: byte := 0x65

  /** The scene's id, "-e", and the epoch. */
  function TrialId(scene: Bytes, epoch: nat): Bytes {
    scene + [MINUS] + [SMALL_E] + Digits(epoch)
  }

  /** A scene and an epoch are read back from their trial identifier, whatever the scene is called. */
  lemma TrialIdInjective(a: Bytes, m: nat, b: Bytes, n: nat)
    requires TrialId(a, m) == TrialId(b, n)
    ensures a == b && m == n
  {
    TrialIdSplits(a, m);
    TrialIdSplits(b, n);
    DigitsRoundTrip(m);
    DigitsRoundTrip(n);
  }

  /** The mark is the last e of the identifier. */
  lemma TrialIdSplits(scene: Bytes, epoch: nat)
    ensures
      var x := TrialId(scene, epoch);
      var i := LastIndexOf(x, SMALL_E);
      i > 0 && x[..i - 1] == scene && x[i + 1..] == Digits(epoch)
  {
    DigitsRoundTrip(epoch);
    var front, digits := scene + [MINUS], Digits(epoch);
    assert forall i :: 0 <= i < |digits| ==> IsDigit(digits[i]);
    hide Digits, LastIndexOf;
    LastBefore(front, SMALL_E, digits);
    Cut(front, SMALL_E, digits);
    assert front[..|scene|] == scene;
    assert TrialId(scene, epoch)[..|scene|] == front[..|scene|];
  }

  // ---------------------------------------------------------------- the store

  /** One frame of a run: scene, epoch, step and camera say where it goes. */
  datatype Put = Put(scene: Bytes, epoch: nat, t: nat, camera: Bytes, image: nat)
  {
    function Identity(): Frame {
      Frame(TrialId(scene, epoch), camera, t)
    }

    function Key(): (Bytes, nat, nat, Bytes) {
      (scene, epoch, t, camera)
    }
  }

  /** The directory's content after these puts, by folded name. */
  function Over(files: map<Bytes, nat>, puts: seq<Put>): map<Bytes, nat> {
    if puts == [] then files
    else
      var last := puts[|puts| - 1];
      Over(files, puts[..|puts| - 1])[NameOf(last) := last.image]
  }

  function Written(puts: seq<Put>): map<Bytes, nat> {
    Over(map[], puts)
  }

  lemma {:induction false} OverConcat(files: map<Bytes, nat>, a: seq<Put>, b: seq<Put>)
    ensures Over(files, a + b) == Over(Over(files, a), b)
  {
    hide NameOf;
    if b == [] {
      assert a + b == a;
    } else {
      assert (a + b)[..|a + b| - 1] == a + b[..|b| - 1];
      OverConcat(files, a, b[..|b| - 1]);
    }
  }

  ghost predicate DistinctKeys(puts: seq<Put>) {
    forall i, j :: 0 <= i < j < |puts| ==> puts[i].Key() != puts[j].Key()
  }

  class FrameStore {
    var files: map<Bytes, nat>
    var count: nat

    constructor ()
      ensures files == map[] && count == 0
    {
      files, count := map[], 0;
    }

    /** Persists one frame and returns its name. */
    method Store(trial: Bytes, t: int, camera: Bytes, image: nat) returns (name: Bytes)
      modifies this
      ensures name == Filename(Frame(trial, camera, t))
      ensures files == old(files)[Fold(name) := image] && count == old(count) + 1
    {
      name := Filename(Frame(trial, camera, t));
      files := files[Fold(name) := image];
      count := count + 1;
    }

    /** Stores the frames of one observation, camera by camera. */
    method StoreObservation(scene: Bytes, epoch: nat, t: nat, shots: seq<Shot>)
      modifies this
      ensures files == Over(old(files), ShotPuts(scene, epoch, t, shots))
      ensures count == old(count) + |shots|
    {
      hide Filename, Fold, TrialId;
      ghost var puts := ShotPuts(scene, epoch, t, shots);
      assert puts[..0] == [];
      for i := 0 to |shots|
        invariant files == Over(old(files), puts[..i]) && count == old(count) + i
      {
        assert puts[..i + 1][..i] == puts[..i];
        var name := Store(TrialId(scene, epoch), t, shots[i].camera, shots[i].image);
      }
      assert puts[..|shots|] == puts;
    }
  }

  /** What one camera saw. */
  datatype Shot = Shot(camera: Bytes, image: nat)

  function ShotPuts(scene: Bytes, epoch: nat, t: nat, shots: seq<Shot>): seq<Put> {
    seq(|shots|, i requires 0 <= i < |shots| => Put(scene, epoch, t, shots[i].camera, shots[i].image))
  }

  function NameOf(p: Put): Bytes {
    Fold(Filename(p.Identity()))
  }

  lemma NamesCollideOnlyOnKeys(p: Put, q: Put)
    requires NameOf(p) == NameOf(q)
    ensures p.Key() == q.Key()
  {
    NamesStayDistinct(p.Identity(), q.Identity());
    TrialIdInjective(p.scene, p.epoch, q.scene, q.epoch);
  }

  /** Every image is under its name, and nothing else is there. */
  ghost predicate Holds(files: map<Bytes, nat>, puts: seq<Put>) {
    |files| == |puts| && forall i :: 0 <= i < |puts| ==> Kept(files, puts[i])
  }

  ghost predicate Kept(files: map<Bytes, nat>, p: Put) {
    NameOf(p) in files && files[NameOf(p)] == p.image
  }

  /** A frame with a key of its own has a name of its own. */
  lemma {:induction false} FreshName(puts: seq<Put>, p: Put)
    requires forall i :: 0 <= i < |puts| ==> puts[i].Key() != p.Key()
    ensures NameOf(p) !in Written(puts)
  {
    if puts != [] {
      FreshName(puts[..|puts| - 1], p);
      hide NameOf;
      var last := puts[|puts| - 1];
      if NameOf(last) == NameOf(p) {
        NamesCollideOnlyOnKeys(last, p);
      }
    }
  }

  lemma KeptStays(files: map<Bytes, nat>, p: Put, q: Put)
    requires Kept(files, p) && NameOf(q) !in files
    ensures Kept(files[NameOf(q) := q.image], p)
  {
    hide NameOf;
  }

  /** No frame of a run overwrites another, on any filesystem. */
  lemma {:induction false} NoFrameIsLost(puts: seq<Put>)
    requires DistinctKeys(puts)
    ensures Holds(Written(puts), puts)
  {
    if puts != [] {
      var front, last := puts[..|puts| - 1], puts[|puts| - 1];
      DistinctFront(puts);
      hide DistinctKeys, NameOf, Kept;
      NoFrameIsLost(front);
      FreshName(front, last);
      assert Kept(Written(puts), last) by {
        KeptNow(Written(front), last);
      }
      forall i | 0 <= i < |front|
        ensures Kept(Written(puts), puts[i])
      {
        assert Kept(Written(front), front[i]);
        KeptStays(Written(front), puts[i], last);
      }
      GrowsByOne(Written(front), last);
    }
  }

  lemma DistinctFront(puts: seq<Put>)
    requires DistinctKeys(puts) && puts != []
    ensures DistinctKeys(puts[..|puts| - 1])
    ensures forall i :: 0 <= i < |puts| - 1 ==> puts[i].Key() != puts[|puts| - 1].Key()
  {
  }

  lemma KeptNow(files: map<Bytes, nat>, p: Put)
    ensures Kept(files[NameOf(p) := p.image], p)
  {
  }

  lemma GrowsByOne(files: map<Bytes, nat>, p: Put)
    requires NameOf(p) !in files
    ensures |files[NameOf(p) := p.image]| == |files| + 1
  {
    assert files[NameOf(p) := p.image].Keys == files.Keys + {NameOf(p)};
  }
}
