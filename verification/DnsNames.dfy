/** Payload bytes as a DNS name: base32 in lower case, cut into labels of at most 63
    letters, under the tunnel's domain; read back from a name in any letter case. */
module DnsNames {

  import opened Wrappers
  import opened Bytes
  import opened Base32

  // ---------------------------------------------------------------------------
  // Letter case and suffixes
  // ---------------------------------------------------------------------------

  function LowerChar(c: char): char { if 'A' <= c <= 'Z' then (c as int + 32) as char else c }

  function UpperChar(c: char): char { if 'a' <= c <= 'z' then (c as int - 32) as char else c }

  function Lower(s: string): (r: string)
    ensures |r| == |s| && forall i :: 0 <= i < |s| ==> r[i] == LowerChar(s[i])
  {
    if s == [] then [] else [LowerChar(s[0])] + Lower(s[1..])
  }

  function Upper(s: string): (r: string)
    ensures |r| == |s| && forall i :: 0 <= i < |s| ==> r[i] == UpperChar(s[i])
  {
    if s == [] then [] else [UpperChar(s[0])] + Upper(s[1..])
  }

  predicate HasSuffix(s: string, t: string) { |t| <= |s| && s[|s| - |t|..] == t }

  function TrimSuffix(s: string, t: string): string { if HasSuffix(s, t) then s[..|s| - |t|] else s }

  function WithoutDots(s: string): string {
    if s == [] then [] else (if s[0] == '.' then [] else [s[0]]) + WithoutDots(s[1..])
  }

  /** How many backslashes s ends in. */
  function Backslashes(s: string): nat {
    if s == [] || s[|s| - 1] != '\\' then 0 else Backslashes(s[..|s| - 1]) + 1
  }

  /** Ends in a dot that no backslash escapes. */
  predicate IsFqdn(s: string) { s != [] && s[|s| - 1] == '.' && Backslashes(s[..|s| - 1]) % 2 == 0 }

  function Fqdn(s: string): (r: string)
    ensures |r| >= 1 && r[|r| - 1] == '.'
  {
    if IsFqdn(s) then s else s + "."
  }

  // ---------------------------------------------------------------------------
  // Encoding
  // ---------------------------------------------------------------------------

  const MAX_LABEL := 63

  /** s with a dot after every 63 characters but the last. */
  function Dotted(s: string): string {
    if |s| <= MAX_LABEL then s else s[..MAX_LABEL] + "." + Dotted(s[MAX_LABEL..])
  }

  function EncodedName(data: seq<Byte>): string { Dotted(Lower(Encode(data))) }

  /** What is still to be written at character i. */
  function Tail(s: string, i: nat): string {
    if i >= |s| then "" else (if i > 0 then "." else "") + Dotted(s[i..])
  }

  lemma {:induction false} TailStep(s: string, i: nat, end: nat)
    requires i < |s| && end == if i + MAX_LABEL > |s| then |s| else i + MAX_LABEL
    ensures Tail(s, i) == (if i > 0 then "." else "") + s[i..end] + Tail(s, i + MAX_LABEL)
  {
    var t := s[i..];
    assert t[..end - i] == s[i..end];
    if |t| > MAX_LABEL {
      assert t[MAX_LABEL..] == s[end..];
      Regrouped(if i > 0 then "." else "", s[i..end], ".", Dotted(s[end..]));
    } else {
      assert t == s[i..end];
    }
  }

  lemma {:induction false} Regrouped(a: string, b: string, c: string, d: string)
    ensures a + (b + c + d) == a + b + (c + d)
  {
  }

  lemma {:induction false} Assoc(a: string, b: string, c: string, d: string)
    ensures a + (b + c + d) == a + b + c + d
  {
  }

  method EncodeName(data: seq<Byte>) returns (name: string)
    ensures name == EncodedName(data)
  {
    name := CutIntoLabels(Lower(Encode(data)));
  }

  method CutIntoLabels(s: string) returns (name: string)
    ensures name == Dotted(s)
  {
    name := "";
    var i := 0;
    assert s[0..] == s;
    while i < |s|
      invariant 0 <= i && name + Tail(s, i) == Dotted(s)
      decreases |s| - i
    {
      var end := if i + MAX_LABEL > |s| then |s| else i + MAX_LABEL;
      TailStep(s, i, end);
      Assoc(name, if i > 0 then "." else "", s[i..end], Tail(s, i + MAX_LABEL));
      if i > 0 { name := name + "."; }
      name := name + s[i..end];
      i := i + MAX_LABEL;
    }
  }

  /** The name a payload travels under; an empty one is the bare domain. */
  function Target(data: seq<Byte>, domain: string): string {
    if EncodedName(data) == "" then Fqdn(domain) else EncodedName(data) + "." + Fqdn(domain)
  }

  // ---------------------------------------------------------------------------
  // Decoding
  // ---------------------------------------------------------------------------

  function DecodeName(fqdn: string, domain: string): Option<seq<Byte>> {
    Strip(Lower(TrimSuffix(Fqdn(fqdn), ".")), Lower(TrimSuffix(Fqdn(domain), ".")))
  }

  function Strip(f: string, d: string): Option<seq<Byte>> {
    if f != d && !HasSuffix(f, "." + d) then None
    else
      var prefix := TrimSuffix(TrimSuffix(f, d), ".");
      if prefix == "" then Some([]) else Decode(Upper(WithoutDots(prefix)))
  }

  // ---------------------------------------------------------------------------
  // Dots
  // ---------------------------------------------------------------------------

  predicate NoDots(s: string) { forall i :: 0 <= i < |s| ==> s[i] != '.' }

  lemma {:induction false} WithoutDotsAppend(s: string, t: string)
    ensures WithoutDots(s + t) == WithoutDots(s) + WithoutDots(t)
    decreases |s|
  {
    if s == [] {
      assert s + t == t;
    } else {
      assert (s + t)[1..] == s[1..] + t;
      WithoutDotsAppend(s[1..], t);
    }
  }

  lemma {:induction false} WithoutDotsSame(s: string)
    requires NoDots(s)
    ensures WithoutDots(s) == s
    decreases |s|
  {
    if s != [] { WithoutDotsSame(s[1..]); }
  }

  lemma {:induction false} DottedBack(s: string)
    requires NoDots(s)
    ensures WithoutDots(Dotted(s)) == s
    decreases |s|
  {
    if |s| <= MAX_LABEL {
      WithoutDotsSame(s);
    } else {
      var a, b := s[..MAX_LABEL], s[MAX_LABEL..];
      DottedBack(b);
      WithoutDotsSame(a);
      WithoutDotsAppend(a + ".", Dotted(b));
      WithoutDotsAppend(a, ".");
      assert WithoutDots(".") == "";
      assert s == a + b;
    }
  }

  /** The labels of a name: what stands between its dots. */
  function Labels(s: string): (ls: seq<string>)
    ensures |ls| >= 1
    decreases |s|
  {
    if s == [] then [""]
    else
      Extend(Labels(s[..|s| - 1]), s[|s| - 1])
  }

  function Extend(ls: seq<string>, c: char): (r: seq<string>)
    requires |ls| >= 1
    ensures |r| >= 1
  {
    if c == '.' then ls + [""] else ls[..|ls| - 1] + [ls[|ls| - 1] + [c]]
  }

  lemma {:induction false} ExtendAppend(a: seq<string>, b: seq<string>, c: char)
    requires |b| >= 1
    ensures Extend(a + b, c) == a + Extend(b, c)
  {
  }

  lemma {:induction false} LabelsStep(s: string, c: char)
    ensures Labels(s + [c]) == Extend(Labels(s), c)
  {
    assert (s + [c])[..|s|] == s;
  }

  lemma {:induction false} LabelsPlain(s: string)
    requires NoDots(s)
    ensures Labels(s) == [s]
    decreases |s|
  {
    if s != [] {
      LabelsPlain(s[..|s| - 1]);
      assert s == s[..|s| - 1] + [s[|s| - 1]];
    }
  }

  lemma {:induction false} LabelsJoin(s: string, t: string)
    ensures Labels(s + "." + t) == Labels(s) + Labels(t)
    decreases |t|
  {
    LabelsStep(s, '.');
    if t == [] {
      assert s + "." + t == s + ['.'];
    } else {
      var a, c := t[..|t| - 1], t[|t| - 1];
      LabelsJoin(s, a);
      assert s + "." + t == s + "." + a + [c];
      LabelsStep(s + "." + a, c);
      ExtendAppend(Labels(s), Labels(a), c);
    }
  }

  /** Every label has between one and 63 characters (section 2.3.4 of RFC 1035). */
  predicate GoodLabels(ls: seq<string>) { forall i :: 0 <= i < |ls| ==> 1 <= |ls[i]| <= 63 }

  lemma {:induction false} DottedLabels(s: string)
    requires NoDots(s) && s != []
    ensures GoodLabels(Labels(Dotted(s)))
    decreases |s|
  {
    if |s| <= MAX_LABEL {
      LabelsPlain(s);
    } else {
      DottedLabels(s[MAX_LABEL..]);
      LabelsPlain(s[..MAX_LABEL]);
      LabelsJoin(s[..MAX_LABEL], Dotted(s[MAX_LABEL..]));
    }
  }

  lemma {:induction false} DottedLength(s: string)
    ensures |Dotted(s)| == if s == [] then 0 else |s| + (|s| - 1) / 63
    decreases |s|
  {
    if |s| > MAX_LABEL {
      DottedLength(s[MAX_LABEL..]);
      assert (|s| - 1) / 63 == (|s| - 64) / 63 + 1;
    }
  }

  // ---------------------------------------------------------------------------
  // The round trip
  // ---------------------------------------------------------------------------

  /** Same name up to letter case, as a resolver may return it. */
  predicate SameName(a: string, b: string) { Lower(a) == Lower(b) }

  lemma {:induction false} LowerOfCode(data: seq<Byte>)
    ensures NoDots(Lower(Encode(data))) && Upper(Lower(Encode(data))) == Encode(data)
    ensures Lower(Lower(Encode(data))) == Lower(Encode(data))
  {
    EncodeAlphabet(data);
    LowerLetters(Encode(data));
  }

  lemma {:induction false} LowerLetters(s: string)
    requires forall i :: 0 <= i < |s| ==> InAlphabet(s[i])
    ensures NoDots(Lower(s)) && Upper(Lower(s)) == s && Lower(Lower(s)) == Lower(s)
  {
    forall i | 0 <= i < |s|
      ensures var c := LowerChar(s[i]); c != '.' && UpperChar(c) == s[i] && LowerChar(c) == c
    {
    }
  }

  lemma {:induction false} LowerAppend(a: string, b: string)
    ensures Lower(a + b) == Lower(a) + Lower(b)
  {
  }

  lemma {:induction false} BackslashesLower(s: string)
    ensures Backslashes(Lower(s)) == Backslashes(s)
    decreases |s|
  {
    if s != [] {
      assert Lower(s)[..|s| - 1] == Lower(s[..|s| - 1]);
      BackslashesLower(s[..|s| - 1]);
    }
  }

  /** Letter case plays no part in what is fully qualified. */
  lemma {:induction false} FqdnLower(s: string)
    ensures Lower(Fqdn(s)) == Fqdn(Lower(s)) && IsFqdn(s) == IsFqdn(Lower(s))
  {
    if s != [] {
      BackslashesLower(s[..|s| - 1]);
      assert Lower(s)[..|s| - 1] == Lower(s[..|s| - 1]);
    }
    LowerAppend(s, ".");
  }

  lemma {:induction false} TrimDotLower(s: string)
    ensures Lower(TrimSuffix(s, ".")) == TrimSuffix(Lower(s), ".")
  {
    assert HasSuffix(s, ".") <==> s != [] && s[|s| - 1] == '.';
    assert HasSuffix(Lower(s), ".") <==> s != [] && Lower(s)[|s| - 1] == '.';
  }

  /** What is compared and cut depends on the lower-case name alone. */
  lemma {:induction false} DecodeLower(a: string, b: string, domain: string)
    requires SameName(a, b)
    ensures DecodeName(a, domain) == DecodeName(b, domain)
  {
    TrimDotLower(Fqdn(a));
    TrimDotLower(Fqdn(b));
    FqdnLower(a);
    FqdnLower(b);
  }

  lemma {:induction false} BackslashesAfterDot(s: string, t: string)
    ensures Backslashes(s + "." + t) == Backslashes(t)
    decreases |t|
  {
    var u := s + "." + t;
    if t != [] {
      assert u[..|u| - 1] == s + "." + t[..|t| - 1];
      BackslashesAfterDot(s, t[..|t| - 1]);
    }
  }

  lemma {:induction false} LowerDotted(s: string)
    requires Lower(s) == s
    ensures Lower(Dotted(s)) == Dotted(s)
    decreases |s|
  {
    if |s| > MAX_LABEL {
      var a, b := s[..MAX_LABEL], s[MAX_LABEL..];
      forall i | 0 <= i < |a| ensures LowerChar(a[i]) == a[i] { assert Lower(s)[i] == s[i]; }
      forall i | 0 <= i < |b| ensures LowerChar(b[i]) == b[i] { assert Lower(s)[MAX_LABEL + i] == s[MAX_LABEL + i]; }
      assert Lower(a) == a && Lower(b) == b;
      LowerDotted(b);
      LowerAppend(a + ".", Dotted(b));
      LowerAppend(a, ".");
    }
  }

  /** The encoded part of a name: not empty for a payload that is not, in lower case, and
      read back to the payload. */
  lemma {:induction false} EncodedNameFacts(data: seq<Byte>)
    ensures EncodedName(data) == "" ==> data == []
    ensures Lower(EncodedName(data)) == EncodedName(data)
    ensures Decode(Upper(WithoutDots(EncodedName(data)))) == Some(data)
  {
    var s := Lower(Encode(data));
    LowerOfCode(data);
    DottedBack(s);
    LowerDotted(s);
    DecodeEncode(data);
  }

  lemma {:induction false} TargetFqdn(data: seq<Byte>, domain: string)
    ensures IsFqdn(Target(data, domain)) == IsFqdn(Fqdn(domain))
    ensures var t := Target(data, domain); t != "" && t[|t| - 1] == '.'
  {
    var n, d := EncodedName(data), Fqdn(domain);
    if n != "" {
      var t := n + "." + d;
      assert t[..|t| - 1] == n + "." + d[..|d| - 1];
      BackslashesAfterDot(n, d[..|d| - 1]);
    }
  }

  lemma {:induction false} TrimDot(s: string)
    ensures TrimSuffix(s + ".", ".") == s
  {
    var t := s + ".";
    assert t[|s|..] == "." && t[..|s|] == s;
  }

  /** Cutting the domain off leaves the encoded part. */
  lemma {:induction false} StripTarget(n: string, d: string)
    requires n != ""
    ensures Strip(n + "." + d, d) == Decode(Upper(WithoutDots(n)))
  {
    var f := n + "." + d;
    assert f[|f| - |d|..] == d;
    assert f[|f| - |d| - 1..] == "." + d;
    assert f[..|f| - |d|] == n + ".";
    TrimDot(n);
  }

  lemma {:induction false} StripBare(d: string)
    ensures Strip(d, d) == Some([])
  {
    assert d[|d| - |d|..] == d && d[..0] == "";
  }

  lemma {:induction false} StripRefuses(f: string, d: string)
    requires f != "" && d != "" && f[|f| - 1] != d[|d| - 1]
    ensures Strip(f, d).None?
  {
    assert ("." + d)[|d|] == d[|d| - 1];
  }

  /** A fully qualified name loses its dot; the others gain one first and lose it again. */
  lemma {:induction false} Undotted(s: string)
    requires s != "" && s[|s| - 1] == '.'
    ensures TrimSuffix(s, ".") == s[..|s| - 1]
    ensures TrimSuffix(Fqdn(s), ".") == if IsFqdn(s) then s[..|s| - 1] else s
  {
    TrimDot(s);
    TrimDot(s[..|s| - 1]);
    assert s == s[..|s| - 1] + ".";
  }

  lemma {:induction false} LowerTarget(n: string, e: string)
    requires Lower(n) == n && e != ""
    ensures var t := n + "." + e; Lower(t[..|t| - 1]) == n + "." + Lower(e[..|e| - 1])
  {
    var t := n + "." + e;
    var h := e[..|e| - 1];
    assert t[..|t| - 1] == n + "." + h;
    LowerAppend(n + ".", h);
    LowerAppend(n, ".");
  }

  lemma {:induction false} HeadOfTarget(n: string, e: string)
    requires Lower(n) == n && e != "" && e[|e| - 1] == '.' && IsFqdn(n + "." + e)
    ensures Lower(TrimSuffix(Fqdn(n + "." + e), ".")) == n + "." + Lower(TrimSuffix(e, "."))
  {
    Undotted(e);
    Undotted(n + "." + e);
    LowerTarget(n, e);
  }

  lemma {:induction false} DecodeTarget(data: seq<Byte>, domain: string)
    requires IsFqdn(Fqdn(domain))
    ensures DecodeName(Target(data, domain), domain) == Some(data)
  {
    EncodedNameFacts(data);
    TargetFqdn(data, domain);
    var n, e := EncodedName(data), Fqdn(domain);
    if n == "" {
      StripBare(Lower(TrimSuffix(e, ".")));
    } else {
      HeadOfTarget(n, e);
      StripTarget(n, Lower(TrimSuffix(e, ".")));
    }
  }

  lemma {:induction false} RefuseDotted(t: string, e: string)
    requires t != "" && t[|t| - 1] == '.' && !IsFqdn(t)
    requires e != "" && e[|e| - 1] == '.' && !IsFqdn(e)
    ensures Strip(Lower(TrimSuffix(Fqdn(t), ".")), Lower(TrimSuffix(e, "."))).None?
  {
    Undotted(e);
    Undotted(t);
    EndsDiffer(t, e);
    StripRefuses(Lower(t), Lower(e[..|e| - 1]));
  }

  lemma {:induction false} EndsDiffer(t: string, e: string)
    requires t != "" && t[|t| - 1] == '.' && e != "" && e[|e| - 1] == '.' && !IsFqdn(e)
    ensures var f, d := Lower(t), Lower(e[..|e| - 1]); f != "" && d != "" && f[|f| - 1] != d[|d| - 1]
  {
    EscapedDot(e);
    LowerLast(t);
    LowerLast(e[..|e| - 1]);
  }

  /** A dot at the end that does not qualify has a backslash before it. */
  lemma {:induction false} EscapedDot(e: string)
    requires e != "" && e[|e| - 1] == '.' && !IsFqdn(e)
    ensures |e| >= 2 && e[..|e| - 1][|e| - 2] == '\\'
  {
  }

  lemma {:induction false} LowerLast(s: string)
    ensures s != "" ==> Lower(s)[|s| - 1] == LowerChar(s[|s| - 1])
  {
  }

  lemma {:induction false} DecodeRefuses(data: seq<Byte>, domain: string)
    requires !IsFqdn(Fqdn(domain))
    ensures DecodeName(Target(data, domain), domain).None?
  {
    TargetFqdn(data, domain);
    RefuseDotted(Target(data, domain), Fqdn(domain));
  }

  /** Whatever letter case a name comes back in, it yields exactly the bytes it was made
      from - if and only if the domain with its dot is fully qualified, that is, does not
      end in a backslash that escapes the dot. */
  lemma {:induction false} NameRoundTrip(data: seq<Byte>, domain: string, name: string)
    requires SameName(name, Target(data, domain))
    ensures DecodeName(name, domain) == Some(data) <==> IsFqdn(Fqdn(domain))
  {
    DecodeLower(name, Target(data, domain), domain);
    if IsFqdn(Fqdn(domain)) {
      DecodeTarget(data, domain);
    } else {
      DecodeRefuses(data, domain);
    }
  }

  /** The labels of an encoded payload keep to the limit, whatever the payload. */
  lemma {:induction false} NameLabels(data: seq<Byte>)
    requires data != []
    ensures GoodLabels(Labels(EncodedName(data)))
  {
    LowerOfCode(data);
    DottedLabels(Lower(Encode(data)));
  }

  /** The characters the encoded part of n bytes takes, dots included. */
  function NameLength(n: nat): nat {
    var c := LetterCount(n);
    if c == 0 then 0 else c + (c - 1) / 63
  }

  lemma {:induction false} EncodedNameLength(data: seq<Byte>)
    ensures |EncodedName(data)| == NameLength(|data|)
  {
    DottedLength(Lower(Encode(data)));
  }

  /** Only names under the domain are read at all. */
  lemma {:induction false} OthersAreRefused(name: string, domain: string)
    ensures var f, d := Lower(TrimSuffix(Fqdn(name), ".")), Lower(TrimSuffix(Fqdn(domain), "."));
      DecodeName(name, domain).Some? ==>
        f == d || (|f| > |d| && f[|f| - |d|..] == d && f[|f| - |d| - 1] == '.')
  {
    var f, d := Lower(TrimSuffix(Fqdn(name), ".")), Lower(TrimSuffix(Fqdn(domain), "."));
    if HasSuffix(f, "." + d) { SuffixParts(f, d); }
  }

  lemma {:induction false} SuffixParts(f: string, d: string)
    requires HasSuffix(f, "." + d)
    ensures |f| > |d| && f[|f| - |d|..] == d && f[|f| - |d| - 1] == '.'
  {
    var t := f[|f| - |d| - 1..];
    assert t == "." + d && t[0] == '.' && t[1..] == d;
    assert t[1..] == f[|f| - |d|..];
  }
}
