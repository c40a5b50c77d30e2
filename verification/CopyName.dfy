/** The name given to a pasted copy: the first free numbered variant of the original name. */
module CopyName {
  import opened Decimals

  /** Position of the last dot, or -1. */
  function LastDot(name: string): (k: int)
    ensures -1 <= k < |name|
    ensures k >= 0 ==> name[k] == '.'
    ensures forall i | k < i < |name| :: name[i] != '.'
  {
    if name == "" then -1
    else if name[|name| - 1] == '.' then |name| - 1
    else LastDot(name[..|name| - 1])
  }

  function Base(name: string): string
  {
    if LastDot(name) > 0 then name[..LastDot(name)] else name
  }

  function Extension(name: string): string
  {
    if LastDot(name) > 0 then name[LastDot(name)..] else ""
  }

  /** The name is its base followed by its extension. */
  lemma NameParts(name: string)
    ensures Base(name) + Extension(name) == name
  {
  }

  /**
   The extension is what starts at the last dot, unless that is the first character: any name is cut
   in one way into a base and an extension that is empty or one dot and what follows it.
   */
  lemma PartsExactly(name: string, base: string, extension: string)
    requires name == base + extension
    ensures Base(name) == base && Extension(name) == extension
            <==> if extension == "" then forall i | 0 < i < |name| :: name[i] != '.'
                 else base != "" && extension[0] == '.' && forall i | 0 < i < |extension| :: extension[i] != '.'
  {
    var dot := LastDot(name);
    if extension != "" && base != "" && extension[0] == '.' && (forall i | 0 < i < |extension| :: extension[i] != '.') {
      assert name[|base|] == '.' && forall i | |base| < i < |name| :: name[i] == extension[i - |base|];
      assert dot == |base|;
    }
    if dot > 0 && base == name[..dot] {
      assert extension == name[dot..];
    }
  }

  /** The candidate with an index, counted from 1. */
  function Candidate(name: string, index: nat): string
    requires index >= 1
  {
    if index == 1 then Base(name) + " copy" + Extension(name)
    else Base(name) + " copy " + Decimal(index) + Extension(name)
  }

  /** The first copy has no number, and the extension stays last. */
  lemma CandidateForms(name: string, index: nat)
    ensures Candidate(name, 1) == Base(name) + " copy" + Extension(name)
    ensures index >= 2 ==> Candidate(name, index) == Base(name) + " copy " + Decimal(index) + Extension(name)
    ensures index < 10 ==> Decimal(index) == ["0123456789"[index]]
    ensures index >= 10 ==> Decimal(index) == Decimal(index / 10) + ["0123456789"[index % 10]]
  {
  }

  lemma CandidateInjective(name: string, a: nat, b: nat)
    requires a >= 1 && b >= 1 && Candidate(name, a) == Candidate(name, b)
    ensures a == b
  {
    var base, ext := Base(name), Extension(name);
    if a >= 2 && b >= 2 {
      var s := Candidate(name, a);
      var from := |base| + |" copy "|;
      assert s[from..|s| - |ext|] == Decimal(a);
      assert s[from..|s| - |ext|] == Decimal(b);
      DecimalInjective(a, b);
    } else {
      assert |" copy"| + 1 == |" copy "|;
    }
  }

  /** If the first n candidates are all taken, at least n names are. */
  lemma {:induction false} TakenBound(name: string, existing: set<string>, n: nat)
    requires forall k | 1 <= k <= n :: Candidate(name, k) in existing
    ensures n <= |existing|
  {
    if n > 0 {
      var others := existing - {Candidate(name, n)};
      forall k | 1 <= k <= n - 1
        ensures Candidate(name, k) in others
      {
        if Candidate(name, k) == Candidate(name, n) {
          CandidateInjective(name, k, n);
        }
      }
      TakenBound(name, others, n - 1);
    }
  }

  /** Tries the numbered variants in order until one is free. */
  method NextCopyName(name: string, existing: set<string>) returns (candidate: string, index: nat)
    ensures index >= 1 && candidate == Candidate(name, index)
    ensures candidate !in existing
    ensures forall k | 1 <= k < index :: Candidate(name, k) in existing
    ensures index <= |existing| + 1
  {
    var base, extension := Base(name), Extension(name);
    index := 1;
    candidate := base + " copy" + extension;
    while candidate in existing
      invariant index >= 1 && candidate == Candidate(name, index)
      invariant forall k | 1 <= k < index :: Candidate(name, k) in existing
      invariant index <= |existing| + 1
      decreases |existing| + 1 - index
    {
      TakenBound(name, existing, index);
      index := index + 1;
      candidate := base + " copy " + Decimal(index) + extension;
    }
  }
}
