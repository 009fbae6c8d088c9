/**
  When two spellings name one account: character by character, for all strings. Only the ASCII letters have two cases
  here; addresses have no others.
 */
module AddressMatch {
  import opened Approval

  predicate SameLetter(c: char, d: char) {
    c == d || ('A' <= c <= 'Z' && d as int == c as int + 32) || ('A' <= d <= 'Z' && c as int == d as int + 32)
  }

  /** The strings differ at most in the case of letters. */
  predicate SameText(a: string, b: string) {
    |a| == |b| && forall i :: 0 <= i < |a| ==> SameLetter(a[i], b[i])
  }

  predicate StartsWith(s: string, prefix: string) {
    |prefix| <= |s| && SameText(s[..|prefix|], prefix)
  }

  lemma LowerCharIff(c: char, d: char)
    ensures LowerChar(c) == LowerChar(d) <==> SameLetter(c, d)
  {
  }

  lemma {:induction false} LowerAt(s: string, i: nat)
    requires i < |s|
    ensures |Lower(s)| == |s| && Lower(s)[i] == LowerChar(s[i])
  {
    if i > 0 {
      LowerAt(s[1..], i - 1);
    } else if |s| > 1 {
      LowerAt(s[1..], 0);
    }
  }

  lemma LowerIff(a: string, b: string)
    ensures |Lower(a)| == |a| && (Lower(a) == Lower(b) <==> SameText(a, b))
  {
    if a != "" { LowerAt(a, 0); }
    if b != "" { LowerAt(b, 0); }
    forall i | 0 <= i < |a| && i < |b| ensures Lower(a)[i] == Lower(b)[i] <==> SameLetter(a[i], b[i]) {
      LowerAt(a, i);
      LowerAt(b, i);
      LowerCharIff(a[i], b[i]);
    }
  }

  lemma {:induction false} LowerPrefix(s: string, n: nat)
    requires n <= |s|
    ensures |Lower(s)| == |s| && Lower(s)[..n] == Lower(s[..n])
  {
    LowerIff(s, s);
    LowerIff(s[..n], s[..n]);
    forall i | 0 <= i < n ensures Lower(s)[i] == Lower(s[..n])[i] {
      LowerAt(s, i);
      LowerAt(s[..n], i);
    }
  }

  lemma StartsIff(s: string, prefix: string)
    requires Lower(prefix) == prefix
    ensures prefix <= Lower(s) <==> StartsWith(s, prefix)
  {
    LowerIff(s, s);
    if |prefix| <= |s| {
      LowerPrefix(s, |prefix|);
      LowerIff(s[..|prefix|], prefix);
    }
  }

  predicate Bech32(s: string) {
    StartsWith(s, "bc1") || StartsWith(s, "tb1") || StartsWith(s, "bcrt1")
  }

  lemma Bech32Iff(s: string)
    ensures IsBech32(s) <==> Bech32(s)
  {
    StartsIff(s, "bc1");
    StartsIff(s, "tb1");
    StartsIff(s, "bcrt1");
  }

  /** Two spellings name one account exactly if they are equal, or differ only in case and case does not count: never on
      TRON, always on EVM, and on Bitcoin between two bech32 addresses. */
  lemma MatchIff(chain: Chain, a: string, b: string)
    ensures Match(chain, a, b) <==>
              a == b || (SameText(a, b) && (chain.Evm? || (chain.Btc? && Bech32(a) && Bech32(b))))
  {
    LowerIff(a, b);
    Bech32Iff(a);
    Bech32Iff(b);
  }
}
