/**
 * The payment view (components/PaymentStep.tsx): a promo-code field whose
 * check is `code.trim().toUpperCase() === 'TWIN'`, and two buttons that call
 * the wizard's callbacks. Trimming and upper-casing are modelled on ASCII.
 */
module PaymentStep {

  const PromoCode := "TWIN"
  const InvalidPromoError := "Invalid promo code. Please try again."

  /** The ASCII characters `String.prototype.trim` removes. */
  predicate IsSpace(c: char) {
    c == ' ' || c == '\t' || c == '\n' || c == '\U{B}' || c == '\U{C}' || c == '\r'
  }

  predicate AllSpace(s: string) {
    forall i :: 0 <= i < |s| ==> IsSpace(s[i])
  }

  /** Length of the longest all-space prefix of `s`. */
  function LeadingSpaces(s: string): (n: nat)
    ensures n <= |s| && AllSpace(s[..n])
    ensures n < |s| ==> !IsSpace(s[n])
  {
    if s == [] || !IsSpace(s[0]) then 0
    else
      var m := LeadingSpaces(s[1..]);
      assert s[..m + 1] == [s[0]] + s[1..][..m];
      m + 1
  }

  /** Length of the longest all-space suffix of `s`. */
  function TrailingSpaces(s: string): (n: nat)
    ensures n <= |s| && AllSpace(s[|s| - n..])
    ensures n < |s| ==> !IsSpace(s[|s| - 1 - n])
  {
    if s == [] || !IsSpace(s[|s| - 1]) then 0
    else
      var init := s[..|s| - 1];
      var m := TrailingSpaces(init);
      assert s[|s| - (m + 1)..] == init[|init| - m..] + [s[|s| - 1]];
      m + 1
  }

  /** `trim()`: `s` without its leading and trailing white space. */
  function Trim(s: string): (r: string)
    ensures var i := LeadingSpaces(s);
      && i + |r| <= |s|
      && r == s[i..i + |r|]
      && AllSpace(s[..i]) && AllSpace(s[i + |r|..])
    ensures r != [] ==> !IsSpace(r[0]) && !IsSpace(r[|r| - 1])
  {
    var i := LeadingSpaces(s);
    var t := s[i..];
    var j := TrailingSpaces(t);
    var r := t[..|t| - j];
    assert r == s[i..i + |r|];
    assert s[i + |r|..] == t[|t| - j..];
    assert r != [] ==> r[0] == s[i] && r[|r| - 1] == t[|t| - 1 - j];
    r
  }

  lemma {:induction false} LeadingSpacesOfPadded(pre: string, rest: string)
    requires AllSpace(pre)
    requires rest == [] || !IsSpace(rest[0])
    ensures LeadingSpaces(pre + rest) == |pre|
  {
    if pre != [] {
      assert (pre + rest)[1..] == pre[1..] + rest;
      LeadingSpacesOfPadded(pre[1..], rest);
    }
  }

  lemma {:induction false} TrailingSpacesOfPadded(rest: string, post: string)
    requires AllSpace(post)
    requires rest == [] || !IsSpace(rest[|rest| - 1])
    ensures TrailingSpaces(rest + post) == |post|
  {
    if post != [] {
      var init := post[..|post| - 1];
      assert (rest + post)[..|rest + post| - 1] == rest + init;
      TrailingSpacesOfPadded(rest, init);
    }
  }

  /** Trimming yields exactly the middle of any space-padded string whose middle has no space at its ends. */
  lemma TrimOfPadded(pre: string, mid: string, post: string)
    requires AllSpace(pre) && AllSpace(post)
    requires mid == [] || (!IsSpace(mid[0]) && !IsSpace(mid[|mid| - 1]))
    ensures Trim(pre + mid + post) == mid
  {
    var s := pre + mid + post;
    if mid == [] {
      assert s == (pre + post) + [];
      assert AllSpace(pre + post);
      LeadingSpacesOfPadded(pre + post, []);
    } else {
      assert s == pre + (mid + post);
      LeadingSpacesOfPadded(pre, mid + post);
      assert s[|pre|..] == mid + post;
      TrailingSpacesOfPadded(mid, post);
    }
  }

  /** Trimming twice is trimming once. */
  lemma TrimIdempotent(s: string)
    ensures Trim(Trim(s)) == Trim(s)
  {
    var r := Trim(s);
    var none: string := [];
    assert none + r + none == r;
    assert AllSpace(none);
    TrimOfPadded(none, r, none);
  }

  /** ASCII `toUpperCase` of one character. */
  function UpperChar(c: char): (u: char)
    ensures 'a' <= c <= 'z' ==> u as int == c as int - 32
    ensures !('a' <= c <= 'z') ==> u == c
  {
    if 'a' <= c <= 'z' then (c as int - 32) as char else c
  }

  /** ASCII `toUpperCase`: every character upper-cased in place. */
  function Upper(s: string): (r: string)
    ensures |r| == |s|
    ensures forall i :: 0 <= i < |s| ==> r[i] == UpperChar(s[i])
  {
    if s == [] then [] else [UpperChar(s[0])] + Upper(s[1..])
  }

  /** The test in `handleApplyPromo`. */
  predicate PromoMatches(code: string) {
    Upper(Trim(code)) == PromoCode
  }

  /** Any white-space padding around any spelling of "twin" in any letter case is accepted. */
  lemma PromoAcceptsPadded(pre: string, word: string, post: string)
    requires AllSpace(pre) && AllSpace(post)
    requires Upper(word) == PromoCode
    ensures PromoMatches(pre + word + post)
  {
    assert UpperChar(word[0]) == 'T' && UpperChar(word[3]) == 'N';
    TrimOfPadded(pre, word, post);
  }

  /** `code[i..j]` is "twin" in some letter case and everything around it is white space. */
  predicate PaddedPromo(code: string, i: int, j: int) {
    0 <= i <= j <= |code| && AllSpace(code[..i]) && Upper(code[i..j]) == PromoCode && AllSpace(code[j..])
  }

  /** An accepted code is a padded "twin": the word starts after the leading white space. */
  lemma PromoMatchShape(code: string)
    requires PromoMatches(code)
    ensures PaddedPromo(code, LeadingSpaces(code), LeadingSpaces(code) + |PromoCode|)
  {
    var i := LeadingSpaces(code);
    assert code[i..i + |Trim(code)|] == Trim(code);
  }

  /** A padded "twin" is accepted. */
  lemma PaddedPromoMatches(code: string, i: int, j: int)
    requires PaddedPromo(code, i, j)
    ensures PromoMatches(code)
  {
    var pre, word, post := code[..i], code[i..j], code[j..];
    assert code == pre + word + post;
    PromoAcceptsPadded(pre, word, post);
  }

  /** A code is accepted exactly when it is "twin" in some letter case, padded with white space. */
  lemma PromoMatchesIff(code: string)
    ensures PromoMatches(code) <==> exists i, j :: PaddedPromo(code, i, j)
  {
    if PromoMatches(code) {
      PromoMatchShape(code);
    }
    if exists i, j :: PaddedPromo(code, i, j) {
      var i, j :| PaddedPromo(code, i, j);
      PaddedPromoMatches(code, i, j);
    }
  }

  /** A four-letter word whose letters upper-case to T, W, I, N spells the promo code. */
  lemma UpperIsPromo(word: string)
    requires |word| == 4
    requires UpperChar(word[0]) == 'T' && UpperChar(word[1]) == 'W'
    requires UpperChar(word[2]) == 'I' && UpperChar(word[3]) == 'N'
    ensures Upper(word) == PromoCode
  {
  }

  /** "twin" is accepted: the case does not matter. */
  lemma AcceptsLowerCase()
    ensures PromoMatches("twin")
  {
    UpperIsPromo("twin");
    TrimOfPadded("", "twin", "");
    assert "" + "twin" + "" == "twin";
  }

  /** " Twin " is accepted: surrounding white space does not matter. */
  lemma AcceptsPadded()
    ensures PromoMatches(" Twin ")
  {
    UpperIsPromo("Twin");
    assert AllSpace(" ");
    PromoAcceptsPadded(" ", "Twin", " ");
    assert " " + "Twin" + " " == " Twin ";
  }

  /** Inner white space is not trimmed away. */
  lemma RejectsInnerSpace()
    ensures !PromoMatches("TW IN")
  {
    var none: string := [];
    assert none + "TW IN" + none == "TW IN";
    TrimOfPadded(none, "TW IN", none);
  }

  /** Another letter in place of N does not match. */
  lemma RejectsOtherLetter()
    ensures !PromoMatches("twim")
  {
    var none: string := [];
    assert none + "twim" + none == "twim";
    TrimOfPadded(none, "twim", none);
    assert Upper("twim")[3] == 'M';
  }

  lemma AllSpaceConcat(a: string, b: string)
    requires AllSpace(a) && AllSpace(b)
    ensures AllSpace(a + b)
  {
  }

  /** `disabled={!promoCode.trim()}`: Apply is enabled when the code has a non-space character. */
  function ApplyEnabled(code: string): (r: bool)
    ensures r <==> exists i :: 0 <= i < |code| && !IsSpace(code[i])
  {
    var t := Trim(code);
    if t == [] then
      var i := LeadingSpaces(code);
      AllSpaceConcat(code[..i], code[i..]);
      assert code == code[..i] + code[i..];
      false
    else
      assert code[LeadingSpaces(code)] == t[0];
      true
  }

  /** The callbacks the view's buttons invoke. */
  datatype Callback = OnPaymentSuccess | OnBack

  /** Local state of the payment view. */
  class PaymentView {
    var promoCode: string
    var promoApplied: bool
    var promoError: string

    constructor ()
      ensures promoCode == "" && !promoApplied && promoError == ""
    {
      promoCode := "";
      promoApplied := false;
      promoError := "";
    }

    /** `handleApplyPromo`. Never turns `promoApplied` off. */
    method ApplyPromo()
      modifies this
      ensures promoCode == old(promoCode)
      ensures PromoMatches(promoCode) ==> promoApplied && promoError == ""
      ensures !PromoMatches(promoCode) ==> promoApplied == old(promoApplied) && promoError == InvalidPromoError
      ensures old(promoApplied) ==> promoApplied
    {
      if Upper(Trim(promoCode)) == PromoCode {
        promoApplied := true;
        promoError := "";
      } else {
        promoError := InvalidPromoError;
      }
    }

    /** The promo input's `onChange`: takes the new text and clears a shown error. Never turns `promoApplied` off. */
    method EditCode(value: string)
      modifies this
      ensures promoCode == value
      ensures promoError == ""
      ensures promoApplied == old(promoApplied)
    {
      promoCode := value;
      if promoError != "" {
        promoError := "";
      }
    }

    /** The confirm button calls `onPaymentSuccess`, whether or not a promo code was applied. */
    method Confirm() returns (c: Callback)
      ensures c == OnPaymentSuccess
    {
      c := OnPaymentSuccess;
    }

    /** The "Go Back" button calls `onBack`. */
    method GoBack() returns (c: Callback)
      ensures c == OnBack
    {
      c := OnBack;
    }
  }
}
