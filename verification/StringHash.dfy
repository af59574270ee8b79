/** The hash the LAD daemon's NameServer puts on every name: a CRC-32 style loop over the bytes of a C string.
    Names are sequences of bytes. Plain `char` is signed on some platforms and unsigned on others, so the sign is a
    parameter; the two agree on bytes below 128. */
module StringHash {

  type Name = seq<bv8>

  // One row of the table: the entry at offset k of sixteen.
  function Entry(k: bv8, v0: bv32, v1: bv32, v2: bv32, v3: bv32, v4: bv32, v5: bv32, v6: bv32, v7: bv32,
      v8: bv32, v9: bv32, v10: bv32, v11: bv32, v12: bv32, v13: bv32, v14: bv32, v15: bv32): bv32
  {
    if k & 8 == 0 then
      if k & 4 == 0 then
        if k & 2 == 0 then (if k & 1 == 0 then v0 else v1) else (if k & 1 == 0 then v2 else v3)
      else
        if k & 2 == 0 then (if k & 1 == 0 then v4 else v5) else (if k & 1 == 0 then v6 else v7)
    else
      if k & 4 == 0 then
        if k & 2 == 0 then (if k & 1 == 0 then v8 else v9) else (if k & 1 == 0 then v10 else v11)
      else
        if k & 2 == 0 then (if k & 1 == 0 then v12 else v13) else (if k & 1 == 0 then v14 else v15)
  }

  // The literal table of the source, sixteen rows of sixteen.
  function CrcTab(i: bv8): bv32 {
    match i >> 4
    case 0 => Entry(i & 0xf,
      0x00000000, 0x77073096, 0xee0e612c, 0x990951ba, 0x076dc419, 0x706af48f, 0xe963a535, 0x9e6495a3,
      0x0edb8832, 0x79dcb8a4, 0xe0d5e91e, 0x97d2d988, 0x09b64c2b, 0x7eb17cbd, 0xe7b82d07, 0x90bf1d91)
    case 1 => Entry(i & 0xf,
      0x1db71064, 0x6ab020f2, 0xf3b97148, 0x84be41de, 0x1adad47d, 0x6ddde4eb, 0xf4d4b551, 0x83d385c7,
      0x136c9856, 0x646ba8c0, 0xfd62f97a, 0x8a65c9ec, 0x14015c4f, 0x63066cd9, 0xfa0f3d63, 0x8d080df5)
    case 2 => Entry(i & 0xf,
      0x3b6e20c8, 0x4c69105e, 0xd56041e4, 0xa2677172, 0x3c03e4d1, 0x4b04d447, 0xd20d85fd, 0xa50ab56b,
      0x35b5a8fa, 0x42b2986c, 0xdbbbc9d6, 0xacbcf940, 0x32d86ce3, 0x45df5c75, 0xdcd60dcf, 0xabd13d59)
    case 3 => Entry(i & 0xf,
      0x26d930ac, 0x51de003a, 0xc8d75180, 0xbfd06116, 0x21b4f4b5, 0x56b3c423, 0xcfba9599, 0xb8bda50f,
      0x2802b89e, 0x5f058808, 0xc60cd9b2, 0xb10be924, 0x2f6f7c87, 0x58684c11, 0xc1611dab, 0xb6662d3d)
    case 4 => Entry(i & 0xf,
      0x76dc4190, 0x01db7106, 0x98d220bc, 0xefd5102a, 0x71b18589, 0x06b6b51f, 0x9fbfe4a5, 0xe8b8d433,
      0x7807c9a2, 0x0f00f934, 0x9609a88e, 0xe10e9818, 0x7f6a0dbb, 0x086d3d2d, 0x91646c97, 0xe6635c01)
    case 5 => Entry(i & 0xf,
      0x6b6b51f4, 0x1c6c6162, 0x856530d8, 0xf262004e, 0x6c0695ed, 0x1b01a57b, 0x8208f4c1, 0xf50fc457,
      0x65b0d9c6, 0x12b7e950, 0x8bbeb8ea, 0xfcb9887c, 0x62dd1ddf, 0x15da2d49, 0x8cd37cf3, 0xfbd44c65)
    case 6 => Entry(i & 0xf,
      0x4db26158, 0x3ab551ce, 0xa3bc0074, 0xd4bb30e2, 0x4adfa541, 0x3dd895d7, 0xa4d1c46d, 0xd3d6f4fb,
      0x4369e96a, 0x346ed9fc, 0xad678846, 0xda60b8d0, 0x44042d73, 0x33031de5, 0xaa0a4c5f, 0xdd0d7cc9)
    case 7 => Entry(i & 0xf,
      0x5005713c, 0x270241aa, 0xbe0b1010, 0xc90c2086, 0x5768b525, 0x206f85b3, 0xb966d409, 0xce61e49f,
      0x5edef90e, 0x29d9c998, 0xb0d09822, 0xc7d7a8b4, 0x59b33d17, 0x2eb40d81, 0xb7bd5c3b, 0xc0ba6cad)
    case 8 => Entry(i & 0xf,
      0xedb88320, 0x9abfb3b6, 0x03b6e20c, 0x74b1d29a, 0xead54739, 0x9dd277af, 0x04db2615, 0x73dc1683,
      0xe3630b12, 0x94643b84, 0x0d6d6a3e, 0x7a6a5aa8, 0xe40ecf0b, 0x9309ff9d, 0x0a00ae27, 0x7d079eb1)
    case 9 => Entry(i & 0xf,
      0xf00f9344, 0x8708a3d2, 0x1e01f268, 0x6906c2fe, 0xf762575d, 0x806567cb, 0x196c3671, 0x6e6b06e7,
      0xfed41b76, 0x89d32be0, 0x10da7a5a, 0x67dd4acc, 0xf9b9df6f, 0x8ebeeff9, 0x17b7be43, 0x60b08ed5)
    case 10 => Entry(i & 0xf,
      0xd6d6a3e8, 0xa1d1937e, 0x38d8c2c4, 0x4fdff252, 0xd1bb67f1, 0xa6bc5767, 0x3fb506dd, 0x48b2364b,
      0xd80d2bda, 0xaf0a1b4c, 0x36034af6, 0x41047a60, 0xdf60efc3, 0xa867df55, 0x316e8eef, 0x4669be79)
    case 11 => Entry(i & 0xf,
      0xcb61b38c, 0xbc66831a, 0x256fd2a0, 0x5268e236, 0xcc0c7795, 0xbb0b4703, 0x220216b9, 0x5505262f,
      0xc5ba3bbe, 0xb2bd0b28, 0x2bb45a92, 0x5cb36a04, 0xc2d7ffa7, 0xb5d0cf31, 0x2cd99e8b, 0x5bdeae1d)
    case 12 => Entry(i & 0xf,
      0x9b64c2b0, 0xec63f226, 0x756aa39c, 0x026d930a, 0x9c0906a9, 0xeb0e363f, 0x72076785, 0x05005713,
      0x95bf4a82, 0xe2b87a14, 0x7bb12bae, 0x0cb61b38, 0x92d28e9b, 0xe5d5be0d, 0x7cdcefb7, 0x0bdbdf21)
    case 13 => Entry(i & 0xf,
      0x86d3d2d4, 0xf1d4e242, 0x68ddb3f8, 0x1fda836e, 0x81be16cd, 0xf6b9265b, 0x6fb077e1, 0x18b74777,
      0x88085ae6, 0xff0f6a70, 0x66063bca, 0x11010b5c, 0x8f659eff, 0xf862ae69, 0x616bffd3, 0x166ccf45)
    case 14 => Entry(i & 0xf,
      0xa00ae278, 0xd70dd2ee, 0x4e048354, 0x3903b3c2, 0xa7672661, 0xd06016f7, 0x4969474d, 0x3e6e77db,
      0xaed16a4a, 0xd9d65adc, 0x40df0b66, 0x37d83bf0, 0xa9bcae53, 0xdebb9ec5, 0x47b2cf7f, 0x30b5ffe9)
    case _ => Entry(i & 0xf,
      0xbdbdf21c, 0xcabac28a, 0x53b39330, 0x24b4a3a6, 0xbad03605, 0xcdd70693, 0x54de5729, 0x23d967bf,
      0xb3667a2e, 0xc4614ab8, 0x5d681b02, 0x2a6f2b94, 0xb40bbe37, 0xc30c8ea1, 0x5a05df1b, 0x2d02ef8d)
  }

  // How section 8 of RFC 1952 generates the table: eight rounds of division by the CRC-32 polynomial.
  function Round(c: bv32): bv32 {
    if c & 1 == 1 then 0xedb88320 ^ (c >> 1) else c >> 1
  }

  function Generated(n: bv32): bv32 {
    Round(Round(Round(Round(Round(Round(Round(Round(n))))))))
  }

  function CharWord(c: bv8, signedChar: bool): bv32 {
    if signedChar && c >= 128 then 0xffffff00 | c as bv32 else c as bv32
  }

  function Step(h: bv32, c: bv32): bv32 {
    (h >> 8) ^ CrcTab((h & 0xff) as bv8) ^ c
  }

  function Fold(h: bv32, s: Name, signedChar: bool): bv32
    decreases |s|
  {
    if s == [] then h else Fold(Step(h, CharWord(s[0], signedChar)), s[1..], signedChar)
  }

  function Length32(s: Name): bv32 {
    (|s| % 0x1_0000_0000) as bv32
  }

  function Hash(s: Name, signedChar: bool): bv32 {
    Fold(Length32(s), s, signedChar)
  }

  predicate HashInjectiveOn(names: set<Name>, signedChar: bool) {
    forall a, b :: a in names && b in names && Hash(a, signedChar) == Hash(b, signedChar) ==> a == b
  }

  predicate Plain(s: Name, signedChar: bool) {
    signedChar ==> forall i :: 0 <= i < |s| ==> s[i] < 128
  }

  /** The loop of the source: one accumulator, seeded with the length, over the bytes in order. */
  method StringHash(s: Name, signedChar: bool) returns (hash: bv32)
    ensures hash == Hash(s, signedChar)
  {
    hide CrcTab, Step, CharWord, Length32;
    hash := Length32(s);
    var i := 0;
    while i < |s|
      invariant 0 <= i <= |s|
      invariant Fold(hash, s[i..], signedChar) == Hash(s, signedChar)
    {
      hash := Step(hash, CharWord(s[i], signedChar));
      assert s[i..][1..] == s[i+1..];
      i := i + 1;
    }
  }

  // ----- The table -----

  lemma LowHalfGenerated(i: bv8)
    requires i < 128
    ensures CrcTab(i) == Generated(i as bv32)
  {
  }

  lemma HighHalfGenerated(i: bv8)
    requires i >= 128
    ensures CrcTab(i) == Generated(i as bv32)
  {
  }

  lemma TableIsGenerated(i: bv8)
    ensures CrcTab(i) == Generated(i as bv32)
  {
    if i < 128 { LowHalfGenerated(i); } else { HighHalfGenerated(i); }
  }

  lemma GeneratedTopBytesDistinct(x: bv32, y: bv32)
    requires x < 256 && y < 256 && Generated(x) >> 24 == Generated(y) >> 24
    ensures x == y
  {
  }

  /** No two entries of the table have the same top byte. */
  lemma TopBytesDistinct(x: bv8, y: bv8)
    requires CrcTab(x) >> 24 == CrcTab(y) >> 24
    ensures x == y
  {
    TableIsGenerated(x);
    TableIsGenerated(y);
    GeneratedTopBytesDistinct(x as bv32, y as bv32);
  }

  // ----- One step backwards -----

  function Low(s: bv32): bv8 {
    (s & 0xff) as bv8
  }

  // u is what a step makes of s and c with table entry t.
  predicate IsStep(s: bv32, c: bv32, t: bv32, u: bv32) {
    u == (s >> 8) ^ t ^ c
  }

  lemma StepIsStep(s: bv32, c: bv32)
    ensures IsStep(s, c, CrcTab(Low(s)), Step(s, c))
  {
    hide CrcTab;
  }

  lemma XorTop(s: bv32, s': bv32, c: bv32, c': bv32, t: bv32, t': bv32, u: bv32, u': bv32)
    requires c < 256 && c' < 256 && IsStep(s, c, t, u) && IsStep(s', c', t', u') && u ^ u' < 0x1000000
    ensures t >> 24 == t' >> 24
  {
  }

  lemma LowByte(s: bv32, s': bv32)
    requires Low(s) == Low(s')
    ensures s & 0xff == s' & 0xff
  {
  }

  lemma XorShift(s: bv32, s': bv32, c: bv32, c': bv32, t: bv32, u: bv32, u': bv32)
    requires s & 0xff == s' & 0xff && IsStep(s, c, t, u) && IsStep(s', c', t, u')
    ensures s ^ s' == (u ^ u' ^ c ^ c') << 8
  {
  }

  /** If two steps end up differing only below the top byte, they read the same table entry, and the difference they
      started from is the difference they end with, less the two characters, shifted up by a byte. */
  lemma StepBack(s: bv32, s': bv32, c: bv32, c': bv32)
    requires c < 256 && c' < 256
    requires Step(s, c) ^ Step(s', c') < 0x1000000
    ensures s & 0xff == s' & 0xff
    ensures s ^ s' == (Step(s, c) ^ Step(s', c') ^ c ^ c') << 8
  {
    hide CrcTab, Step, IsStep, Low;
    StepIsStep(s, c);
    StepIsStep(s', c');
    XorTop(s, s', c, c', CrcTab(Low(s)), CrcTab(Low(s')), Step(s, c), Step(s', c'));
    TopBytesDistinct(Low(s), Low(s'));
    LowByte(s, s');
    XorShift(s, s', c, c', CrcTab(Low(s)), Step(s, c), Step(s', c'));
  }

  lemma StepInjective(s: bv32, s': bv32, c: bv32)
    requires Step(s, c) == Step(s', c)
    ensures s == s'
  {
    hide CrcTab;
    StepCancel(s, s', c);
    StepBack(s, s', 0, 0);
  }

  lemma StepCancel(s: bv32, s': bv32, c: bv32)
    requires Step(s, c) == Step(s', c)
    ensures Step(s, 0) == Step(s', 0)
  {
    hide CrcTab;
  }

  // ----- Folding -----

  lemma FoldConcat(h: bv32, s: Name, t: Name, signedChar: bool)
    ensures Fold(h, s + t, signedChar) == Fold(Fold(h, s, signedChar), t, signedChar)
    decreases |s|
  {
    hide CrcTab;
    if s == [] {
      assert s + t == t;
    } else {
      assert (s + t)[1..] == s[1..] + t;
      FoldConcat(Step(h, CharWord(s[0], signedChar)), s[1..], t, signedChar);
    }
  }

  /** A common suffix never makes two different accumulators meet. */
  lemma {:induction false} FoldInjective(h: bv32, h': bv32, s: Name, signedChar: bool)
    requires Fold(h, s, signedChar) == Fold(h', s, signedChar)
    ensures h == h'
    decreases |s|
  {
    hide CrcTab;
    if s != [] {
      var c := CharWord(s[0], signedChar);
      FoldInjective(Step(h, c), Step(h', c), s[1..], signedChar);
      StepInjective(h, h', c);
    }
  }

  // What two accumulators that meet after m more characters look like: the same low byte, and a difference that
  // reaches no further up than this.
  predicate Near(s: bv32, s': bv32, m: nat) {
    if m == 0 then s == s'
    else (s ^ s') & 0xff == 0 && s ^ s' <= (if m == 1 then 0xffff else if m == 2 then 0xffffff else 0xffffffff)
  }

  lemma NearShift(n: bv32, n': bv32, s: bv32, s': bv32, c: bv32, c': bv32, m: nat)
    requires m <= 2 && c < 256 && c' < 256 && Near(n, n', m)
    requires s ^ s' == (n ^ n' ^ c ^ c') << 8
    ensures Near(s, s', m + 1)
  {
  }

  lemma NearBack(s: bv32, s': bv32, c: bv32, c': bv32, m: nat)
    requires m <= 2 && c < 256 && c' < 256
    requires Near(Step(s, c), Step(s', c'), m)
    ensures Near(s, s', m + 1)
  {
    hide CrcTab, Step, Near;
    NearBelowTop(Step(s, c), Step(s', c'), m);
    StepBack(s, s', c, c');
    NearShift(Step(s, c), Step(s', c'), s, s', c, c', m);
  }

  lemma NearBelowTop(n: bv32, n': bv32, m: nat)
    requires m <= 2 && Near(n, n', m)
    ensures n ^ n' < 0x1000000
    ensures m == 0 ==> n ^ n' == 0
  {
  }

  lemma CharWordSmall(c: bv8, signedChar: bool)
    requires signedChar ==> c < 128
    ensures CharWord(c, signedChar) < 256
  {
  }

  /** Accumulators that meet after one to three more characters agree in their low byte. */
  lemma {:induction false} Backward(s: bv32, s': bv32, t: Name, t': Name, signedChar: bool)
    requires |t| == |t'| <= 3 && Plain(t, signedChar) && Plain(t', signedChar)
    requires Fold(s, t, signedChar) == Fold(s', t', signedChar)
    ensures Near(s, s', |t|)
    decreases |t|
  {
    hide CrcTab, Step, CharWord;
    if t != [] {
      var c, c' := CharWord(t[0], signedChar), CharWord(t'[0], signedChar);
      CharWordSmall(t[0], signedChar);
      CharWordSmall(t'[0], signedChar);
      Backward(Step(s, c), Step(s', c'), t[1..], t'[1..], signedChar);
      NearBack(s, s', c, c', |t| - 1);
    }
  }

  // A difference that is a single character and has an empty low byte is no difference.
  lemma SameCharacter(s: bv32, c: bv32, c': bv32, m: nat)
    requires m <= 3 && c < 256 && c' < 256 && Near(Step(s, c), Step(s, c'), m)
    ensures c == c'
  {
    hide CrcTab;
    NearLowByte(Step(s, c), Step(s, c'), m);
    CharacterCancels((s >> 8) ^ CrcTab((s & 0xff) as bv8), c, c');
  }

  lemma NearLowByte(n: bv32, n': bv32, m: nat)
    requires Near(n, n', m)
    ensures (n ^ n') & 0xff == 0
  {
  }

  lemma CharacterCancels(r: bv32, c: bv32, c': bv32)
    requires c < 256 && c' < 256 && ((r ^ c) ^ (r ^ c')) & 0xff == 0
    ensures c == c'
  {
  }

  lemma CharWordInjective(c: bv8, c': bv8, signedChar: bool)
    requires CharWord(c, signedChar) == CharWord(c', signedChar)
    ensures c == c'
  {
  }

  /** Up to four characters read from the same accumulator are determined by where they lead. */
  lemma {:induction false} Window(h: bv32, w: Name, w': Name, signedChar: bool)
    requires |w| == |w'| <= 4 && Plain(w, signedChar) && Plain(w', signedChar)
    requires Fold(h, w, signedChar) == Fold(h, w', signedChar)
    ensures w == w'
    decreases |w|
  {
    hide CrcTab, Step, CharWord, Near;
    if w != [] {
      var c, c' := CharWord(w[0], signedChar), CharWord(w'[0], signedChar);
      CharWordSmall(w[0], signedChar);
      CharWordSmall(w'[0], signedChar);
      Backward(Step(h, c), Step(h, c'), w[1..], w'[1..], signedChar);
      SameCharacter(h, c, c', |w| - 1);
      CharWordInjective(w[0], w'[0], signedChar);
      Window(Step(h, c), w[1..], w'[1..], signedChar);
      assert w == [w[0]] + w[1..] && w' == [w'[0]] + w'[1..];
    }
  }

  predicate DifferOnlyIn(a: Name, b: Name, lo: nat, hi: nat) {
    |a| == |b| && lo <= hi <= |a| && a[..lo] == b[..lo] && a[hi..] == b[hi..]
  }

  /** Two names of one length that differ only inside four consecutive positions never share a hash. */
  lemma NoCollisionWithinFour(a: Name, b: Name, lo: nat, hi: nat, signedChar: bool)
    requires DifferOnlyIn(a, b, lo, hi) && hi - lo <= 4
    requires Plain(a, signedChar) && Plain(b, signedChar)
    ensures Hash(a, signedChar) == Hash(b, signedChar) <==> a == b
  {
    hide CrcTab, Step, CharWord, Fold, Length32;
    if Hash(a, signedChar) == Hash(b, signedChar) {
      Split(a, lo, hi, signedChar);
      Split(b, lo, hi, signedChar);
      var h := Fold(Length32(a), a[..lo], signedChar);
      SameLength(a, b);
      FoldInjective(Fold(h, a[lo..hi], signedChar), Fold(h, b[lo..hi], signedChar), a[hi..], signedChar);
      Window(h, a[lo..hi], b[lo..hi], signedChar);
      assert a == a[..lo] + a[lo..hi] + a[hi..];
      assert b == b[..lo] + b[lo..hi] + b[hi..];
    }
  }

  /** Names made from one pattern with four free positions are a set on which the hash is injective. */
  lemma FourFreePositionsInjective(names: set<Name>, lo: nat, hi: nat, signedChar: bool)
    requires forall a, b :: a in names && b in names ==> DifferOnlyIn(a, b, lo, hi)
    requires forall a :: a in names ==> Plain(a, signedChar)
    requires lo <= hi <= lo + 4
    ensures HashInjectiveOn(names, signedChar)
  {
    forall a, b | a in names && b in names && Hash(a, signedChar) == Hash(b, signedChar)
      ensures a == b
    {
      NoCollisionWithinFour(a, b, lo, hi, signedChar);
    }
  }

  lemma SameLength(a: Name, b: Name)
    requires |a| == |b|
    ensures Length32(a) == Length32(b)
  {
  }

  lemma Split(a: Name, lo: nat, hi: nat, signedChar: bool)
    requires lo <= hi <= |a|
    ensures Hash(a, signedChar) ==
      Fold(Fold(Fold(Length32(a), a[..lo], signedChar), a[lo..hi], signedChar), a[hi..], signedChar)
  {
    hide CrcTab, Step, CharWord, Fold, Length32;
    assert a == (a[..lo] + a[lo..hi]) + a[hi..];
    FoldConcat(Length32(a), a[..lo] + a[lo..hi], a[hi..], signedChar);
    FoldConcat(Length32(a), a[..lo], a[lo..hi], signedChar);
  }

  /** Four is the most the hash can promise: dvdba and x98cu are five characters long and collide. */
  lemma FiveCharactersCanCollide(signedChar: bool)
    ensures Hash([100, 118, 100, 98, 97], signedChar) == Hash([120, 57, 56, 99, 117], signedChar)
  {
    hide CrcTab, Step, CharWord, Fold;
    FoldFirst(signedChar);
    FoldSecond(signedChar);
  }

  lemma FoldFirst(signedChar: bool)
    ensures Fold(5, [100, 118, 100, 98, 97], signedChar) == 0x8ef55570
  {
    hide CrcTab, Step, CharWord;
    var s: Name := [100, 118, 100, 98, 97];
    assert s[0..] == s && s[5..] == [];
    FirstSteps();
    FoldAt(0x00000005, s, 0, 0x706af4eb, signedChar);
    FoldAt(0x706af4eb, s, 1, 0x37a85172, signedChar);
    FoldAt(0x37a85172, s, 2, 0xbe3cb825, signedChar);
    FoldAt(0xbe3cb825, s, 3, 0x4bbae89d, signedChar);
    FoldAt(0x4bbae89d, s, 4, 0x8ef55570, signedChar);
  }

  lemma FirstSteps()
    ensures Step(0x00000005, 100 as bv32) == 0x706af4eb
    ensures Step(0x706af4eb, 118 as bv32) == 0x37a85172
    ensures Step(0x37a85172, 100 as bv32) == 0xbe3cb825
    ensures Step(0xbe3cb825, 98 as bv32) == 0x4bbae89d
    ensures Step(0x4bbae89d, 97 as bv32) == 0x8ef55570
  {
  }

  lemma FoldSecond(signedChar: bool)
    ensures Fold(5, [120, 57, 56, 99, 117], signedChar) == 0x8ef55570
  {
    hide CrcTab, Step, CharWord;
    var s: Name := [120, 57, 56, 99, 117];
    assert s[0..] == s && s[5..] == [];
    SecondSteps();
    FoldAt(0x00000005, s, 0, 0x706af4f7, signedChar);
    FoldAt(0x706af4f7, s, 1, 0x23a90d72, signedChar);
    FoldAt(0x23a90d72, s, 2, 0xbe28b925, signedChar);
    FoldAt(0xbe28b925, s, 3, 0x4bbafc9d, signedChar);
    FoldAt(0x4bbafc9d, s, 4, 0x8ef55570, signedChar);
  }

  lemma SecondSteps()
    ensures Step(0x00000005, 120 as bv32) == 0x706af4f7
    ensures Step(0x706af4f7, 57 as bv32) == 0x23a90d72
    ensures Step(0x23a90d72, 56 as bv32) == 0xbe28b925
    ensures Step(0xbe28b925, 99 as bv32) == 0x4bbafc9d
    ensures Step(0x4bbafc9d, 117 as bv32) == 0x8ef55570
  {
  }

  lemma FoldAt(h: bv32, s: Name, i: nat, h': bv32, signedChar: bool)
    requires i < |s| && s[i] < 128 && Step(h, s[i] as bv32) == h'
    ensures Fold(h, s[i..], signedChar) == Fold(h', s[i+1..], signedChar)
  {
    hide CrcTab, Step;
    assert s[i..][1..] == s[i+1..];
  }
}
