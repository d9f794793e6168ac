/** core/openai_tool_names.py: reversible aliases for tool names that a provider would not take.

    The digest is any function to sixteen hexadecimal characters; that a name's attempts do not run out of
    unreserved aliases is a premise, as it is of the loop that tries them. */
module ToolNames {
  import opened KeyOrder

  const MAX_LENGTH := 64
  const DIGEST_LENGTH := 16

  type Digest = string -> string

  predicate PortableChar(c: char) {
    'A' <= c <= 'Z' || 'a' <= c <= 'z' || '0' <= c <= '9' || c == '_' || c == '-'
  }

  predicate AllPortable(s: string) {
    forall i :: 0 <= i < |s| ==> PortableChar(s[i])
  }

  /** `^[A-Za-z0-9_-]{1,64}$` as a full match. */
  predicate Portable(s: string) {
    1 <= |s| <= MAX_LENGTH && AllPortable(s)
  }

  predicate HexDigits(s: string) {
    |s| == DIGEST_LENGTH && forall i :: 0 <= i < |s| ==> '0' <= s[i] <= '9' || 'a' <= s[i] <= 'f'
  }

  ghost predicate IsDigest(h: Digest) {
    forall s :: HexDigits(h(s))
  }

  // ----- The readable part -----

  /** Each run of characters that are not portable becomes one underscore. */
  function Squeezed(s: string): string {
    if s == [] then []
    else
      var last := s[|s| - 1];
      var before := s[..|s| - 1];
      if PortableChar(last) then Squeezed(before) + [last]
      else if before != [] && !PortableChar(before[|before| - 1]) then Squeezed(before)
      else Squeezed(before) + ['_']
  }

  predicate Mark(c: char) {
    c == '_' || c == '-'
  }

  function StripRight(s: string): string {
    if s != [] && Mark(s[|s| - 1]) then StripRight(s[..|s| - 1]) else s
  }

  function StripLeft(s: string): string {
    if s != [] && Mark(s[0]) then StripLeft(s[1..]) else s
  }

  function OrTool(s: string): string {
    if s == [] then "tool" else s
  }

  function Cut(s: string, n: nat): string {
    if n < |s| then s[..n] else s
  }

  function Readable(name: string): string {
    var words := OrTool(StripRight(StripLeft(Squeezed(name))));
    OrTool(StripRight(Cut(words, MAX_LENGTH - DIGEST_LENGTH - 1)))
  }

  function Decimal(n: nat): string {
    (if n < 10 then [] else Decimal(n / 10)) + [['0', '1', '2', '3', '4', '5', '6', '7', '8', '9'][n % 10]]
  }

  function AliasOf(h: Digest, name: string, attempt: nat): string {
    Readable(name) + "_" + h(if attempt == 0 then name else name + "\0" + Decimal(attempt))
  }

  lemma {:induction false} SqueezedIsPortable(s: string)
    ensures AllPortable(Squeezed(s))
  {
    if s != [] { SqueezedIsPortable(s[..|s| - 1]); }
  }

  lemma {:induction false} StripsKeep(s: string)
    requires AllPortable(s)
    ensures AllPortable(StripRight(s)) && |StripRight(s)| <= |s|
    ensures AllPortable(StripLeft(s)) && |StripLeft(s)| <= |s|
    decreases |s|
  {
    if s != [] {
      StripsKeep(s[..|s| - 1]);
      StripsKeep(s[1..]);
    }
  }

  lemma ReadableIsPortable(name: string)
    ensures AllPortable(Readable(name)) && 1 <= |Readable(name)| <= MAX_LENGTH - DIGEST_LENGTH - 1
  {
    SqueezedIsPortable(name);
    StripsKeep(Squeezed(name));
    StripsKeep(StripLeft(Squeezed(name)));
    var words := OrTool(StripRight(StripLeft(Squeezed(name))));
    StripsKeep(Cut(words, MAX_LENGTH - DIGEST_LENGTH - 1));
  }

  /** Every alias is a name the provider takes. */
  lemma AliasIsPortable(h: Digest, name: string, attempt: nat)
    requires IsDigest(h)
    ensures Portable(AliasOf(h, name, attempt))
  {
    ReadableIsPortable(name);
    assert HexDigits(h(if attempt == 0 then name else name + "\0" + Decimal(attempt)));
  }

  // ----- What an alias looks like -----

  predicate NonePortable(s: string) {
    forall i :: 0 <= i < |s| ==> !PortableChar(s[i])
  }

  lemma {:induction false} PortableStays(s: string)
    requires AllPortable(s)
    ensures Squeezed(s) == s
  {
    if s != "" {
      PortableStays(s[..|s| - 1]);
      assert s == s[..|s| - 1] + [s[|s| - 1]];
    }
  }

  lemma {:induction false} RunBecomesOne(s: string)
    requires NonePortable(s) && s != ""
    ensures Squeezed(s) == "_"
  {
    if 1 < |s| { RunBecomesOne(s[..|s| - 1]); }
  }

  predicate CutsNoRun(a: string, b: string) {
    a == "" || b == "" || PortableChar(a[|a| - 1]) || PortableChar(b[0])
  }

  lemma {:induction false} PiecesAdd(a: string, b: string)
    requires CutsNoRun(a, b)
    ensures Squeezed(a + b) == Squeezed(a) + Squeezed(b)
    decreases |b|
  {
    if b == "" {
      assert a + b == a;
    } else {
      var shorter := b[..|b| - 1];
      assert (a + b)[..|a + b| - 1] == a + shorter;
      PiecesAdd(a, shorter);
      assert a + shorter != "" && shorter != "" ==> (a + shorter)[|a + shorter| - 1] == shorter[|shorter| - 1];
      assert shorter == "" ==> a + shorter == a;
    }
  }

  /** Portable text stays, a run of other characters becomes one underscore, and a text can be taken in pieces wherever
      it is not cut inside such a run: this leaves one way to squeeze any text. */
  lemma SqueezingIsByRuns(a: string, b: string)
    ensures AllPortable(a) ==> Squeezed(a) == a
    ensures NonePortable(a) && a != "" ==> Squeezed(a) == "_"
    ensures CutsNoRun(a, b) ==> Squeezed(a + b) == Squeezed(a) + Squeezed(b)
  {
    if AllPortable(a) { PortableStays(a); }
    if NonePortable(a) && a != "" { RunBecomesOne(a); }
    if CutsNoRun(a, b) { PiecesAdd(a, b); }
  }

  /** `w` is `s` without the marks at its ends. */
  ghost predicate Stripped(s: string, w: string, i: nat) {
    && i + |w| <= |s| && w == s[i..i + |w|]
    && (forall k :: 0 <= k < i || i + |w| <= k < |s| ==> Mark(s[k]))
    && (w != "" ==> !Mark(w[0]) && !Mark(w[|w| - 1]))
  }

  lemma {:induction false} StripsRight(s: string)
    ensures var w := StripRight(s);
            && |w| <= |s| && w == s[..|w|] && (forall k :: |w| <= k < |s| ==> Mark(s[k]))
            && (w != "" ==> !Mark(w[|w| - 1]))
  {
    if s != "" { StripsRight(s[..|s| - 1]); }
  }

  lemma {:induction false} StripsLeft(s: string)
    ensures var w := StripLeft(s);
            && |w| <= |s| && w == s[|s| - |w|..] && (forall k :: 0 <= k < |s| - |w| ==> Mark(s[k]))
            && (w != "" ==> !Mark(w[0]))
  {
    if s != "" && Mark(s[0]) {
      StripsLeft(s[1..]);
      var w := StripLeft(s[1..]);
      assert s[1..][|s| - 1 - |w|..] == s[|s| - |w|..];
      forall k | 0 <= k < |s| - |w| ensures Mark(s[k]) {
        if 0 < k { assert s[k] == s[1..][k - 1]; }
      }
    }
  }

  lemma StripsBoth(s: string)
    ensures |StripLeft(s)| <= |s|
    ensures Stripped(s, StripRight(StripLeft(s)), |s| - |StripLeft(s)|)
  {
    var left := StripLeft(s);
    StripsLeft(s);
    StripsRight(left);
    var i, w := |s| - |left|, StripRight(left);
    assert s[i..] == left;
    forall k | i + |w| <= k < |s| ensures Mark(s[k]) { assert s[k] == left[k - i]; }
  }

  /** `readable` is `words` cut to the room that the digest leaves, and again without marks at the cut; a name with
      nothing in it but marks and foreign characters reads "tool". */
  ghost predicate Reads(readable: string, words: string) {
    if words == "" then readable == "tool"
    else
      && readable != "" && |readable| <= 47 && readable <= words && !Mark(readable[|readable| - 1])
      && (forall k :: |readable| <= k < |words| && k < 47 ==> Mark(words[k]))
  }

  lemma CutReads(words: string)
    requires words != "" ==> !Mark(words[0])
    ensures Reads(OrTool(StripRight(Cut(OrTool(words), 47))), words)
  {
    StripsRight(Cut(OrTool(words), 47));
    if words != "" {
      var cut, kept := Cut(words, 47), StripRight(Cut(words, 47));
      assert cut[0] == words[0];
      assert kept != "";
      forall k | |kept| <= k < |words| && k < 47 ensures Mark(words[k]) { assert words[k] == cut[k]; }
    }
  }

  /** An alias is the squeezed name without marks at its ends, cut to fit, an underscore, and the digest: of the name
      at first, and then of the name with the number of the attempt. */
  lemma AliasReadsLikeTheName(h: Digest, name: string, attempt: nat, words: string, i: nat)
    requires Stripped(Squeezed(name), words, i)
    ensures Reads(Readable(name), words)
    ensures attempt == 0 ==> AliasOf(h, name, attempt) == Readable(name) + "_" + h(name)
    ensures attempt != 0 ==> AliasOf(h, name, attempt) == Readable(name) + "_" + h(name + "\0" + Decimal(attempt))
  {
    var left := StripLeft(Squeezed(name));
    StripsBoth(Squeezed(name));
    StrippedIsUnique(Squeezed(name), words, i, StripRight(left), |Squeezed(name)| - |left|);
    CutReads(words);
  }

  lemma StrippedIsUnique(s: string, v: string, i: nat, w: string, j: nat)
    requires Stripped(s, v, i) && Stripped(s, w, j)
    ensures v == w
  {
    if v != "" {
      assert s[i] == v[0] && s[i + |v| - 1] == v[|v| - 1];
    }
    if w != "" {
      assert s[j] == w[0] && s[j + |w| - 1] == w[|w| - 1];
    }
  }

  function Value(digits: string): int {
    if digits == "" then 0 else 10 * Value(digits[..|digits| - 1]) + (digits[|digits| - 1] as int - '0' as int)
  }

  /** The attempt is written in decimal, without leading zeros. */
  lemma {:induction false} DecimalReadsBack(n: nat)
    ensures Value(Decimal(n)) == n && Decimal(n) != ""
    ensures forall i :: 0 <= i < |Decimal(n)| ==> '0' <= Decimal(n)[i] <= '9'
    ensures 0 < n ==> Decimal(n)[0] != '0'
  {
    if 10 <= n {
      DecimalReadsBack(n / 10);
      assert Decimal(n)[..|Decimal(n)| - 1] == Decimal(n / 10);
    }
  }

  // ----- All the aliases -----

  /** The aliases of a name, by attempt. */
  type Namer = (string, nat) -> string

  function Aliases(h: Digest): Namer {
    (name: string, attempt: nat) => AliasOf(h, name, attempt)
  }

  ghost predicate NamesPortably(f: Namer) {
    forall name: string, attempt: nat :: Portable(f(name, attempt))
  }

  lemma AliasesArePortable(h: Digest)
    requires IsDigest(h)
    ensures NamesPortably(Aliases(h))
  {
    forall name: string, attempt: nat ensures Portable(Aliases(h)(name, attempt)) {
      AliasIsPortable(h, name, attempt);
    }
  }

  // ----- A fresh alias -----

  predicate FreeAt(f: Namer, name: string, reserved: set<string>, n: nat) {
    f(name, n) !in reserved
  }

  /** What the loop needs to end. */
  ghost predicate Escapes(f: Namer, name: string, reserved: set<string>) {
    exists n: nat :: FreeAt(f, name, reserved, n)
  }

  ghost predicate FirstFree(f: Namer, name: string, reserved: set<string>, n: nat) {
    FreeAt(f, name, reserved, n) && forall m: nat :: m < n ==> !FreeAt(f, name, reserved, m)
  }

  lemma {:induction false} SomeFirst(f: Namer, name: string, reserved: set<string>, limit: nat)
    requires FreeAt(f, name, reserved, limit)
    ensures exists n: nat :: FirstFree(f, name, reserved, n)
    decreases limit
  {
    if m: nat :| m < limit && FreeAt(f, name, reserved, m) {
      SomeFirst(f, name, reserved, m);
    } else {
      assert FirstFree(f, name, reserved, limit);
    }
  }

  ghost function FirstAttempt(f: Namer, name: string, reserved: set<string>): (n: nat)
    requires Escapes(f, name, reserved)
    ensures FirstFree(f, name, reserved, n)
  {
    var limit: nat :| FreeAt(f, name, reserved, limit);
    SomeFirst(f, name, reserved, limit);
    var n: nat :| FirstFree(f, name, reserved, n);
    n
  }

  /** The alias of the first attempt that is not reserved. */
  ghost function UniqueAlias(f: Namer, name: string, reserved: set<string>): string
    requires Escapes(f, name, reserved)
  {
    f(name, FirstAttempt(f, name, reserved))
  }

  /** `_unique_alias`: the next attempt until one is free. */
  method FindUniqueAlias(f: Namer, name: string, reserved: set<string>) returns (alias: string)
    requires Escapes(f, name, reserved)
    ensures alias == UniqueAlias(f, name, reserved) && alias !in reserved
  {
    ghost var first := FirstAttempt(f, name, reserved);
    var attempt := 0;
    alias := f(name, attempt);
    while alias in reserved
      invariant alias == f(name, attempt) && attempt <= first
      decreases first - attempt
    {
      assert !FreeAt(f, name, reserved, attempt);
      attempt := attempt + 1;
      alias := f(name, attempt);
    }
    assert FreeAt(f, name, reserved, attempt);
  }

  // ----- The codec -----

  datatype Codec = Codec(toAlias: map<string, string>, toOriginal: map<string, string>, kept: set<string>) {
    function Encode(name: string): string {
      if name in toAlias then toAlias[name] else name
    }

    function Decode(name: string): string {
      if name in toOriginal then toOriginal[name] else name
    }

    predicate IsAlias(value: string) {
      value in toOriginal
    }
  }

  function Distinctive(names: seq<string>): set<string> {
    set n | n in names && n != ""
  }

  function PortableOf(names: seq<string>): set<string> {
    set n | n in Distinctive(names) && Portable(n)
  }

  lemma CodesAreDistinct(names: set<string>)
    ensures Distinct(names, Codes)
  {
    forall a, b | a in names && b in names && Codes(a) == Codes(b) ensures a == b { CodesDiffer(a, b); }
  }

  ghost function Sorted(names: set<string>): seq<string> {
    CodesAreDistinct(names);
    Reverse(Descending(names, Codes))
  }

  ghost function ToAlias(names: seq<string>): seq<string> {
    Sorted(Distinctive(names) - PortableOf(names))
  }

  /** Enough aliases for each of the first `n` names of the list in turn. */
  ghost predicate AllEscape(f: Namer, portable: set<string>, list: seq<string>, n: nat)
    requires n <= |list|
    decreases n, 0
  {
    n == 0 ||
    (AllEscape(f, portable, list, n - 1) &&
     Escapes(f, list[n - 1], portable + Built(f, portable, list, n - 1).toOriginal.Keys))
  }

  ghost function Built(f: Namer, portable: set<string>, list: seq<string>, n: nat): Codec
    requires n <= |list| && AllEscape(f, portable, list, n)
    decreases n, 1
  {
    if n == 0 then Codec(map[], map[], portable)
    else
      var codec := Built(f, portable, list, n - 1);
      var alias := UniqueAlias(f, list[n - 1], portable + codec.toOriginal.Keys);
      Codec(codec.toAlias[list[n - 1] := alias], codec.toOriginal[alias := list[n - 1]], portable)
  }

  ghost predicate Served(h: Digest, names: seq<string>) {
    AllEscape(Aliases(h), PortableOf(names), ToAlias(names), |ToAlias(names)|)
  }

  ghost function CodecFor(h: Digest, names: seq<string>): Codec
    requires Served(h, names)
  {
    Built(Aliases(h), PortableOf(names), ToAlias(names), |ToAlias(names)|)
  }

  /** `sorted` over a set. */
  method Sort(names: set<string>) returns (list: seq<string>)
    ensures list == Sorted(names)
  {
    CodesAreDistinct(names);
    var falling: seq<string> := [];
    var rest := names;
    while exists n :: n in rest
      invariant rest <= names
      invariant Distinct(rest, Codes)
      invariant falling + Descending(rest, Codes) == Descending(names, Codes)
      decreases |rest|
    {
      ghost var top := TopOf(rest, Codes);
      var m :| m in rest && forall x :: x in rest && x != m ==> Less(Codes(x), Codes(m));
      TopIsUnique(rest, m, top);
      assert Descending(rest, Codes) == [m] + Descending(rest - {m}, Codes);
      falling := falling + [m];
      rest := rest - {m};
    }
    assert Descending(rest, Codes) == [];
    assert falling == Descending(names, Codes);
    list := Reverse(falling);
  }

  lemma TopIsUnique(rest: set<string>, a: string, b: string)
    requires Top(rest, Codes, a) && Top(rest, Codes, b)
    ensures a == b
  {
    if a != b {
      LessChains(Codes(a), Codes(b), Codes(a));
      LessIsStrict(Codes(a));
    }
  }

  /** The codec of some tool names: portable ones as they are, the others each with an alias of their own. */
  method FromNames(h: Digest, names: seq<string>) returns (codec: Codec)
    requires Served(h, names)
    ensures codec == CodecFor(h, names)
  {
    var unique := set n | n in names && n != "";
    var portable := set n | n in unique && Portable(n);
    var list := Sort(unique - portable);
    codec := Assign(Aliases(h), portable, list);
  }

  /** The loop that gives each name of the list its alias. */
  method Assign(f: Namer, portable: set<string>, list: seq<string>) returns (codec: Codec)
    requires AllEscape(f, portable, list, |list|)
    ensures codec == Built(f, portable, list, |list|)
  {
    var reserved := portable;
    codec := Codec(map[], map[], portable);
    var i := 0;
    while i < |list|
      invariant i <= |list|
      invariant AllEscape(f, portable, list, i) && codec == Built(f, portable, list, i)
      invariant reserved == portable + codec.toOriginal.Keys && codec.kept == portable
    {
      EscapesPrefix(f, portable, list, |list|, i + 1);
      codec, reserved := AssignOne(f, codec, reserved, list[i]);
      i := i + 1;
    }
  }

  method AssignOne(f: Namer, codec: Codec, reserved: set<string>, name: string)
    returns (next: Codec, taken: set<string>)
    requires Escapes(f, name, reserved)
    ensures var alias := UniqueAlias(f, name, reserved);
            && next == Codec(codec.toAlias[name := alias], codec.toOriginal[alias := name], codec.kept)
            && taken == reserved + {alias}
  {
    var alias := FindUniqueAlias(f, name, reserved);
    taken := reserved + {alias};
    next := Codec(codec.toAlias[name := alias], codec.toOriginal[alias := name], codec.kept);
  }

  lemma {:induction false} EscapesPrefix(f: Namer, portable: set<string>, list: seq<string>, n: nat, i: nat)
    requires i <= n <= |list| && AllEscape(f, portable, list, n)
    ensures AllEscape(f, portable, list, i)
  {
    if i < n { EscapesPrefix(f, portable, list, n - 1, i); }
  }

  // ----- What the codec promises -----

  /** The two maps undo each other; aliases are portable, and are no portable name and no other alias; the names
      that have one are not portable. */
  ghost predicate CodecOk(codec: Codec, portable: set<string>) {
    && (forall n :: n in codec.toAlias ==>
          codec.toAlias[n] in codec.toOriginal && codec.toOriginal[codec.toAlias[n]] == n && !Portable(n))
    && (forall a :: a in codec.toOriginal ==>
          codec.toOriginal[a] in codec.toAlias && codec.toAlias[codec.toOriginal[a]] == a
          && Portable(a) && a !in portable)
    && codec.kept == portable
  }

  lemma {:induction false} BuiltIsOk(f: Namer, portable: set<string>, list: seq<string>, n: nat)
    requires n <= |list| && NamesPortably(f) && AllEscape(f, portable, list, n)
    requires forall i :: 0 <= i < |list| ==> !Portable(list[i])
    requires forall i, j :: 0 <= i < j < |list| ==> list[i] != list[j]
    ensures CodecOk(Built(f, portable, list, n), portable)
    ensures forall x :: x in Built(f, portable, list, n).toAlias <==> x in list[..n]
  {
    if n > 0 {
      BuiltIsOk(f, portable, list, n - 1);
      var name := list[n - 1];
      var codec := Built(f, portable, list, n - 1);
      var alias := UniqueAlias(f, name, portable + codec.toOriginal.Keys);
      FreshAlias(f, name, portable + codec.toOriginal.Keys);
      assert list[..n] == list[..n - 1] + [name];
      assert name !in list[..n - 1];
      OneMoreAlias(codec, portable, name, alias);
    }
  }

  lemma OneMoreAlias(codec: Codec, portable: set<string>, name: string, alias: string)
    requires CodecOk(codec, portable) && name !in codec.toAlias && !Portable(name)
    requires alias !in codec.toOriginal && alias !in portable && Portable(alias)
    ensures CodecOk(Codec(codec.toAlias[name := alias], codec.toOriginal[alias := name], portable), portable)
  {
  }

  lemma FreshAlias(f: Namer, name: string, reserved: set<string>)
    requires NamesPortably(f) && Escapes(f, name, reserved)
    ensures Portable(UniqueAlias(f, name, reserved)) && UniqueAlias(f, name, reserved) !in reserved
  {
    assert Portable(f(name, FirstAttempt(f, name, reserved)));
  }

  lemma SortedLists(names: set<string>)
    ensures forall n :: n in Sorted(names) <==> n in names
    ensures forall i, j :: 0 <= i < j < |Sorted(names)| ==> Sorted(names)[i] != Sorted(names)[j]
  {
    CodesAreDistinct(names);
    var falling := Descending(names, Codes);
    DescendingLists(names, Codes);
    ReverseLists(falling);
    forall i, j | 0 <= i < j < |Sorted(names)| ensures Sorted(names)[i] != Sorted(names)[j] {
      ReverseAt(falling, i);
      ReverseAt(falling, j);
      LessIsStrict(Codes(Sorted(names)[i]));
    }
  }

  lemma {:induction false} CodecIsOk(h: Digest, names: seq<string>)
    requires IsDigest(h) && Served(h, names)
    ensures CodecOk(CodecFor(h, names), PortableOf(names))
    ensures forall n :: n in CodecFor(h, names).toAlias <==> n in names && n != "" && !Portable(n)
  {
    SortedLists(Distinctive(names) - PortableOf(names));
    forall i | 0 <= i < |ToAlias(names)| ensures !Portable(ToAlias(names)[i]) {
      assert ToAlias(names)[i] in ToAlias(names);
    }
    AliasesArePortable(h);
    BuiltIsOk(Aliases(h), PortableOf(names), ToAlias(names), |ToAlias(names)|);
    assert ToAlias(names)[..|ToAlias(names)|] == ToAlias(names);
  }

  /** Names stay apart on the wire: two strings share an encoding only when one is the other's alias, which no
      supplied name is. */
  lemma {:induction false} EncodeKeepsNamesApart(h: Digest, names: seq<string>, a: string, b: string)
    requires IsDigest(h) && Served(h, names)
    ensures var codec := CodecFor(h, names);
            codec.Encode(a) == codec.Encode(b) <==>
            a == b || (codec.IsAlias(a) && codec.Decode(a) == b) || (codec.IsAlias(b) && codec.Decode(b) == a)
    ensures a in names && a != "" ==> !CodecFor(h, names).IsAlias(a)
  {
    CodecIsOk(h, names);
  }

  lemma {:induction false} EncodeIsInjective(h: Digest, names: seq<string>, a: string, b: string)
    requires IsDigest(h) && Served(h, names)
    requires a in names && b in names && a != "" && b != ""
    requires CodecFor(h, names).Encode(a) == CodecFor(h, names).Encode(b)
    ensures a == b
  {
    EncodeKeepsNamesApart(h, names, a, b);
    EncodeKeepsNamesApart(h, names, b, a);
  }

  /** Encoding what is encoded changes nothing, for every string. */
  lemma {:induction false} EncodeIsIdempotent(h: Digest, names: seq<string>, x: string)
    requires IsDigest(h) && Served(h, names)
    ensures var codec := CodecFor(h, names); codec.Encode(codec.Encode(x)) == codec.Encode(x)
  {
    CodecIsOk(h, names);
  }

  /** Decoding undoes encoding for exactly the strings that are not aliases; every supplied name is one. */
  lemma {:induction false} DecodeUndoesEncode(h: Digest, names: seq<string>, x: string)
    requires IsDigest(h) && Served(h, names)
    ensures var codec := CodecFor(h, names); codec.Decode(codec.Encode(x)) == x <==> !codec.IsAlias(x)
    ensures x in names && x != "" ==> !CodecFor(h, names).IsAlias(x)
  {
    CodecIsOk(h, names);
  }

  /** A string goes out portable exactly when it was supplied or was portable already; portable ones go out as
      they are. */
  lemma {:induction false} WireNamesArePortable(h: Digest, names: seq<string>, x: string)
    requires IsDigest(h) && Served(h, names)
    ensures Portable(CodecFor(h, names).Encode(x)) <==> (x in names && x != "") || Portable(x)
    ensures Portable(x) ==> CodecFor(h, names).Encode(x) == x
  {
    CodecIsOk(h, names);
  }

  /** Order and repetition of the names, and empty ones among them, make no difference. */
  lemma OnlyTheSetOfNamesMatters(h: Digest, a: seq<string>, b: seq<string>)
    requires forall n :: n != "" ==> (n in a <==> n in b)
    ensures Served(h, a) <==> Served(h, b)
    ensures Served(h, a) ==> CodecFor(h, a) == CodecFor(h, b)
  {
    assert Distinctive(a) == Distinctive(b);
    assert PortableOf(a) == PortableOf(b);
  }

  // ----- When there are enough aliases -----

  function Tries(f: Namer, name: string, n: nat): set<string> {
    set k | 0 <= k < n :: f(name, k)
  }

  ghost predicate MoreThan(f: Namer, name: string, size: nat) {
    exists n: nat :: size < |Tries(f, name, n)|
  }

  /** The first attempts for each name give more aliases than there are names. */
  ghost predicate Spread(h: Digest, names: seq<string>) {
    forall name :: name in names ==> MoreThan(Aliases(h), name, |Distinctive(names)|)
  }

  lemma Pigeonhole(f: Namer, name: string, reserved: set<string>, n: nat)
    requires |reserved| < |Tries(f, name, n)|
    ensures Escapes(f, name, reserved)
  {
    if Tries(f, name, n) <= reserved {
      SubsetSize(Tries(f, name, n), reserved);
    } else {
      var a :| a in Tries(f, name, n) && a !in reserved;
      var k: nat :| k < n && f(name, k) == a;
      assert FreeAt(f, name, reserved, k);
    }
  }

  lemma {:induction false} SubsetSize(a: set<string>, b: set<string>)
    requires a <= b
    ensures |a| <= |b|
    decreases a
  {
    if x :| x in a { SubsetSize(a - {x}, b - {x}); }
  }

  lemma {:induction false} BuiltIsSmall(f: Namer, portable: set<string>, list: seq<string>, n: nat)
    requires n <= |list| && AllEscape(f, portable, list, n)
    ensures |Built(f, portable, list, n).toOriginal| <= n
  {
    if n > 0 { BuiltIsSmall(f, portable, list, n - 1); }
  }

  lemma {:induction false} SpreadEscapes(f: Namer, portable: set<string>, list: seq<string>, size: nat, n: nat)
    requires n <= |list| && |portable| + |list| <= size
    requires forall i :: 0 <= i < |list| ==> MoreThan(f, list[i], size)
    ensures AllEscape(f, portable, list, n)
  {
    if n > 0 {
      SpreadEscapes(f, portable, list, size, n - 1);
      BuiltIsSmall(f, portable, list, n - 1);
      var k: nat :| size < |Tries(f, list[n - 1], k)|;
      var aliases := Built(f, portable, list, n - 1).toOriginal.Keys;
      UnionSize(portable, aliases);
      Pigeonhole(f, list[n - 1], portable + aliases, k);
    }
  }

  lemma UnionSize(a: set<string>, b: set<string>)
    ensures |a + b| <= |a| + |b|
  {
    assert a + b == a + (b - a) && |a + (b - a)| == |a| + |b - a|;
    SubsetSize(b - a, b);
  }

  /** A digest that spreads far enough serves the names: the search for each alias ends. */
  lemma SpreadingDigestServes(h: Digest, names: seq<string>)
    requires Spread(h, names)
    ensures Served(h, names)
  {
    var portable := PortableOf(names);
    var others := Distinctive(names) - portable;
    CodesAreDistinct(others);
    DescendingLists(others, Codes);
    ReverseLists(Descending(others, Codes));
    SortedLists(others);
    assert Distinctive(names) == portable + others;
    forall i | 0 <= i < |ToAlias(names)| ensures MoreThan(Aliases(h), ToAlias(names)[i], |Distinctive(names)|) {
      assert ToAlias(names)[i] in ToAlias(names);
    }
    SpreadEscapes(Aliases(h), portable, ToAlias(names), |Distinctive(names)|, |ToAlias(names)|);
  }
}
