/**
 The trust test on `SigningCertURL`: the pattern
 `^https://sns\.[-a-z0-9]+\.amazonaws\.com/.*$` compiled with IGNORECASE
 and applied with `match`, written out as a hand-coded matcher.

 The repository runs on Python 2 (its mixed tab/space indentation does not
 compile on Python 3), where a case-insensitive `str` pattern folds ASCII
 letters only, `.` matches every character but a newline, and `$` matches at
 the end of the text or just before a newline that ends it.
 */
module CertUrl {

  /** Python 2 `re` case folding without LOCALE/UNICODE: ASCII upper case only. */
  function Lower(c: char): char {
    if 'A' <= c <= 'Z' then (c as int + 32) as char else c
  }

  function LowerString(s: string): (t: string)
    ensures |t| == |s|
    ensures forall i :: 0 <= i < |s| ==> t[i] == Lower(s[i])
  {
    seq(|s|, i requires 0 <= i < |s| => Lower(s[i]))
  }

  /** The fixed text before the host label: `https://sns.` */
  const Scheme: string := "https://sns."

  /** The fixed text after the host label: `.amazonaws.com/` */
  const Domain: string := ".amazonaws.com/"

  /** `[-a-z0-9]` under IGNORECASE: the folded character is in the class. */
  predicate LabelChar(c: char) {
    var d := Lower(c);
    d == '-' || 'a' <= d <= 'z' || '0' <= d <= '9'
  }

  /** A run of pattern literals matched under IGNORECASE (`lit` is lower case). */
  predicate FoldEq(s: string, lit: string) {
    |s| == |lit| && forall i :: 0 <= i < |s| ==> Lower(s[i]) == lit[i]
  }

  predicate NoNewline(s: string) {
    forall i :: 0 <= i < |s| ==> s[i] != '\n'
  }

  /** `.*$`: text without a newline, optionally followed by one final newline. */
  predicate RestOk(r: string) {
    NoNewline(r) || (|r| > 0 && r[|r| - 1] == '\n' && NoNewline(r[..|r| - 1]))
  }

  /** The first index at or after `i` that does not hold a label character. */
  function LabelEnd(s: string, i: nat): (k: nat)
    requires i <= |s|
    ensures i <= k <= |s|
    ensures forall j :: i <= j < k ==> LabelChar(s[j])
    ensures k == |s| || !LabelChar(s[k])
    decreases |s| - i
  {
    if i == |s| || !LabelChar(s[i]) then i else LabelEnd(s, i + 1)
  }

  /**
   The matcher. The label cannot contain a dot and `Domain` starts with one,
   so the only label the regular expression can settle on is the longest run
   of label characters after `Scheme`; no backtracking is needed.
   */
  function IsTrustedCertUrl(s: string): (ok: bool)
    ensures ok ==> |s| >= |Scheme| + 1 + |Domain|
  {
    && |s| >= |Scheme|
    && FoldEq(s[..|Scheme|], Scheme)
    && var k := LabelEnd(s, |Scheme|);
    && k > |Scheme|
    && k + |Domain| <= |s|
    && FoldEq(s[k..k + |Domain|], Domain)
    && RestOk(s[k + |Domain|..])
  }

  /**
   The language of the pattern read as a regular expression with
   backtracking: some label length makes the rest of the text fit.
   */
  ghost predicate SplitsAt(s: string, k: int) {
    && |Scheme| < k
    && k + |Domain| <= |s|
    && FoldEq(s[..|Scheme|], Scheme)
    && (forall j :: |Scheme| <= j < k ==> LabelChar(s[j]))
    && FoldEq(s[k..k + |Domain|], Domain)
    && RestOk(s[k + |Domain|..])
  }

  ghost predicate InPatternLanguage(s: string) {
    exists k :: SplitsAt(s, k)
  }

  /** `LabelEnd` is determined by where the run of label characters stops. */
  lemma LabelEndAt(s: string, i: nat, k: nat)
    requires i <= k <= |s|
    requires forall j :: i <= j < k ==> LabelChar(s[j])
    requires k == |s| || !LabelChar(s[k])
    ensures LabelEnd(s, i) == k
  {
  }

  /** The hand-coded matcher accepts exactly the language of the pattern. */
  lemma MatcherAgreesWithPattern(s: string)
    ensures IsTrustedCertUrl(s) <==> InPatternLanguage(s)
  {
    if IsTrustedCertUrl(s) {
      assert SplitsAt(s, LabelEnd(s, |Scheme|));
    }
    if InPatternLanguage(s) {
      var k :| SplitsAt(s, k);
      assert Lower(s[k]) == '.';
      LabelEndAt(s, |Scheme|, k);
    }
  }

  /**
   Every URL of the documented shape is trusted: a case-insensitive
   `https://sns.`, one non-empty label of letters, digits and `-`, a
   case-insensitive `.amazonaws.com/`, then any text without a newline
   (or with one final newline).
   */
  lemma AcceptsDocumentedShape(prefix: string, host: string, domain: string, rest: string)
    requires FoldEq(prefix, Scheme) && FoldEq(domain, Domain)
    requires |host| > 0 && forall j :: 0 <= j < |host| ==> LabelChar(host[j])
    requires RestOk(rest)
    ensures IsTrustedCertUrl(prefix + host + domain + rest)
  {
    var s := prefix + host + domain + rest;
    var k := |Scheme| + |host|;
    assert s[..|Scheme|] == prefix;
    assert s[k..k + |Domain|] == domain;
    assert s[k + |Domain|..] == rest;
    assert SplitsAt(s, k);
    MatcherAgreesWithPattern(s);
  }

  /** Two texts that agree after ASCII folding are both trusted or both not. */
  lemma CaseInsensitive(s: string, t: string)
    requires LowerString(s) == LowerString(t)
    ensures IsTrustedCertUrl(s) <==> IsTrustedCertUrl(t)
  {
    var ls, lt := LowerString(s), LowerString(t);
    assert |s| == |ls| == |lt| == |t|;
    forall i | 0 <= i < |s| ensures Lower(s[i]) == Lower(t[i]) {
      assert ls[i] == lt[i];
    }
    FoldAgreementDecides(s, t);
  }

  lemma FoldAgreementDecides(s: string, t: string)
    requires |s| == |t|
    requires forall i :: 0 <= i < |s| ==> Lower(s[i]) == Lower(t[i])
    ensures IsTrustedCertUrl(s) <==> IsTrustedCertUrl(t)
  {
    if |s| >= |Scheme| {
      var k := LabelEnd(s, |Scheme|);
      var k' := LabelEnd(t, |Scheme|);
      assert forall j :: 0 <= j < |s| ==> (LabelChar(s[j]) <==> LabelChar(t[j]));
      assert k == k';
      assert forall j :: 0 <= j < |s| ==> (s[j] == '\n' <==> t[j] == '\n') by {
        forall j | 0 <= j < |s| ensures s[j] == '\n' <==> t[j] == '\n' {
          assert Lower(s[j]) == Lower(t[j]);
        }
      }
      if k + |Domain| <= |s| {
        RestOkAgrees(s[k + |Domain|..], t[k + |Domain|..]);
      }
    }
  }

  lemma RestOkAgrees(r: string, r': string)
    requires |r| == |r'|
    requires forall j :: 0 <= j < |r| ==> (r[j] == '\n' <==> r'[j] == '\n')
    ensures RestOk(r) <==> RestOk(r')
  {
    if |r| > 0 {
      var p, p' := r[..|r| - 1], r'[..|r'| - 1];
      assert forall j :: 0 <= j < |p| ==> p[j] == r[j] && p'[j] == r'[j];
    }
  }

  /** The text between `https://` and the first `/` after it: the URL's authority. */
  function SlashFrom(s: string, i: nat): (k: nat)
    requires i <= |s|
    ensures i <= k <= |s|
    ensures forall j :: i <= j < k ==> s[j] != '/'
    ensures k == |s| || s[k] == '/'
    decreases |s| - i
  {
    if i == |s| || s[i] == '/' then i else SlashFrom(s, i + 1)
  }

  const AuthorityStart: nat := |"https://"|

  function Authority(s: string): string
    requires |s| >= AuthorityStart
  {
    s[AuthorityStart..SlashFrom(s, AuthorityStart)]
  }

  /**
   A trusted URL names a host that is exactly one label under
   `amazonaws.com`, prefixed by `sns.`: no further dot, no user
   information (`@`) and no port (`:`) can occur in its authority.
   */
  lemma TrustedAuthorityIsSnsHost(s: string)
    requires IsTrustedCertUrl(s)
    ensures var a := Authority(s);
      && |a| > |"sns."| + |".amazonaws.com"|
      && FoldEq(a[..|"sns."|], "sns.")
      && FoldEq(a[|a| - |".amazonaws.com"|..], ".amazonaws.com")
      && forall j :: |"sns."| <= j < |a| - |".amazonaws.com"| ==> LabelChar(a[j])
  {
    var k := LabelEnd(s, |Scheme|);
    var slash := k + |Domain| - 1;
    assert Lower(s[slash]) == '/';
    forall j | AuthorityStart <= j < slash ensures s[j] != '/' {
      if j < |Scheme| {
        assert Lower(s[j]) == Scheme[j];
      } else if j >= k {
        assert Lower(s[j]) == Domain[j - k];
      } else {
        assert LabelChar(s[j]);
      }
    }
    var e := SlashFrom(s, AuthorityStart);
    assert e == slash;
    var a := Authority(s);
    assert forall i :: 0 <= i < |a| ==> a[i] == s[AuthorityStart + i];
    assert forall i :: 0 <= i < 4 ==> Lower(a[i]) == Scheme[AuthorityStart + i];
    assert forall i :: |a| - 14 <= i < |a| ==> Lower(a[i]) == Domain[AuthorityStart + i - k];
  }
}
