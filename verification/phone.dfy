/**
 * The phone-number normaliser of src/lib/formatPhoneNumber.ts: drop every
 * character outside [0-9+], then make sure the result starts with '+',
 * turning a leading trunk '0' into the Indonesian country code "+62".
 */
module PhoneNumber {

  /** The characters the pattern [0-9+] matches. */
  predicate IsPhoneChar(c: char) {
    '0' <= c <= '9' || c == '+'
  }

  predicate AllPhoneChars(s: string) {
    forall i :: 0 <= i < |s| ==> IsPhoneChar(s[i])
  }

  /** `a` can be obtained from `b` by deleting characters (greedy test). */
  predicate IsSubsequence(a: string, b: string) {
    if a == [] then true
    else if b == [] then false
    else if a[0] == b[0] then IsSubsequence(a[1..], b[1..])
    else IsSubsequence(a, b[1..])
  }

  /** `phoneNumber.replace(/[^0-9+]/g, "")`: keep the characters of [0-9+], in order. */
  function Clean(s: string): (r: string)
    ensures |r| <= |s|
    ensures AllPhoneChars(r)
  {
    if s == [] then []
    else if IsPhoneChar(s[0]) then [s[0]] + Clean(s[1..])
    else Clean(s[1..])
  }

  /** The normaliser itself. */
  function FormatPhoneNumber(phoneNumber: string): (r: string)
    ensures |r| > 0 && r[0] == '+'
    ensures AllPhoneChars(r)
    ensures |Clean(phoneNumber)| <= |r| <= |Clean(phoneNumber)| + 2
  {
    var clean := Clean(phoneNumber);
    if |clean| > 0 && clean[0] == '+' then clean
    else if |clean| > 0 && clean[0] == '0' then "+62" + clean[1..]
    else "+" + clean
  }

  // ---------------------------------------------------------------------------
  // The filter

  /** Cleaning distributes over concatenation: the filter looks at one character at a time. */
  lemma {:induction false} CleanAppend(a: string, b: string)
    ensures Clean(a + b) == Clean(a) + Clean(b)
  {
    if a == [] {
      assert a + b == b;
    } else {
      assert (a + b)[0] == a[0];
      assert (a + b)[1..] == a[1..] + b;
      CleanAppend(a[1..], b);
    }
  }

  /** A string is left alone by the filter exactly when it is made of [0-9+] only. */
  lemma {:induction false} CleanFixedPoint(s: string)
    ensures Clean(s) == s <==> AllPhoneChars(s)
  {
    if s != [] && AllPhoneChars(s) {
      assert AllPhoneChars(s[1..]) by {
        forall i | 0 <= i < |s[1..]| ensures IsPhoneChar(s[1..][i]) {
          assert s[1..][i] == s[i + 1];
        }
      }
      CleanFixedPoint(s[1..]);
      assert IsPhoneChar(s[0]);
      assert [s[0]] + s[1..] == s;
    }
  }

  /** Cleaning only deletes characters: order is preserved. */
  lemma {:induction false} CleanIsSubsequence(s: string)
    ensures IsSubsequence(Clean(s), s)
  {
    if s != [] {
      CleanIsSubsequence(s[1..]);
      if IsPhoneChar(s[0]) {
        assert ([s[0]] + Clean(s[1..]))[1..] == Clean(s[1..]);
      } else {
        SubsequenceExtend(Clean(s[1..]), s);
      }
    }
  }

  /** A subsequence of the tail of `b` is a subsequence of `b`. */
  lemma {:induction false} SubsequenceExtend(a: string, b: string)
    requires |b| > 0 && IsSubsequence(a, b[1..])
    ensures IsSubsequence(a, b)
    decreases |a| + |b|
  {
    if a != [] && a[0] == b[0] {
      SubsequenceTail(a, b[1..]);
    }
  }

  /** Dropping the head of `a` keeps it a subsequence. */
  lemma {:induction false} SubsequenceTail(a: string, b: string)
    requires a != [] && IsSubsequence(a, b)
    ensures IsSubsequence(a[1..], b)
    decreases |a| + |b|
  {
    if a[0] == b[0] {
      SubsequenceExtend(a[1..], b);
    } else {
      SubsequenceTail(a, b[1..]);
      SubsequenceExtend(a[1..], b);
    }
  }

  /** No character of [0-9+] is lost: every one of them occurs as often as in the input, every other one not at all. */
  lemma {:induction false} CleanCounts(s: string, c: char)
    ensures multiset(Clean(s))[c] == if IsPhoneChar(c) then multiset(s)[c] else 0
  {
    if s != [] {
      CleanCounts(s[1..], c);
      assert s == [s[0]] + s[1..];
      assert multiset(s) == multiset([s[0]]) + multiset(s[1..]);
      if IsPhoneChar(s[0]) {
        assert multiset(Clean(s)) == multiset([s[0]]) + multiset(Clean(s[1..]));
      }
    }
  }

  // ---------------------------------------------------------------------------
  // The three cases of the normaliser

  /** A cleaned number that already starts with '+' is returned as it is. */
  lemma KeepsInternationalNumber(phoneNumber: string)
    requires var clean := Clean(phoneNumber); |clean| > 0 && clean[0] == '+'
    ensures FormatPhoneNumber(phoneNumber) == Clean(phoneNumber)
  {
  }

  /** Only the first leading '0' becomes "+62"; the output is two characters longer than the cleaned number. */
  lemma {:induction false} ReplacesTrunkZero(phoneNumber: string)
    requires var clean := Clean(phoneNumber); |clean| > 0 && clean[0] == '0'
    ensures var clean := Clean(phoneNumber);
      FormatPhoneNumber(phoneNumber) == "+62" + clean[1..] &&
      |FormatPhoneNumber(phoneNumber)| == |clean| + 2
  {
  }

  /** Any other cleaned number (including the empty one) gets a '+' in front. */
  lemma PrependsPlus(phoneNumber: string)
    requires var clean := Clean(phoneNumber); !(|clean| > 0 && (clean[0] == '+' || clean[0] == '0'))
    ensures var clean := Clean(phoneNumber);
      FormatPhoneNumber(phoneNumber) == "+" + clean &&
      |FormatPhoneNumber(phoneNumber)| == |clean| + 1
  {
  }

  /** Normalising a normalised number changes nothing. */
  lemma {:induction false} FormatIdempotent(phoneNumber: string)
    ensures FormatPhoneNumber(FormatPhoneNumber(phoneNumber)) == FormatPhoneNumber(phoneNumber)
  {
    var r := FormatPhoneNumber(phoneNumber);
    CleanFixedPoint(r);
  }

  /** The empty input (or one with no [0-9+] character) yields "+". */
  lemma {:induction false} EmptyBecomesPlus(phoneNumber: string)
    requires forall i :: 0 <= i < |phoneNumber| ==> !IsPhoneChar(phoneNumber[i])
    ensures FormatPhoneNumber(phoneNumber) == "+"
  {
    var clean := Clean(phoneNumber);
    if clean != [] {
      CleanCounts(phoneNumber, clean[0]);
    }
  }

  /** A local number with separators: "0811-11" becomes "+6281111". */
  lemma {:induction false} LocalNumberExample()
    ensures FormatPhoneNumber("0811-11") == "+6281111"
  {
    assert Clean("1") == "1";
    assert Clean("11") == "11";
    assert Clean("-11") == "11";
    assert Clean("1-11") == "111";
    assert Clean("11-11") == "1111";
    assert Clean("811-11") == "81111";
    assert Clean("0811-11") == "081111";
  }
}
