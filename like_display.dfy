/**
 * The card's like summary: three conditional lines under the heart icon, each
 * guarded by a test on the number of likes in the current post snapshot.
 */
module LikeDisplay {
  import opened Types

  const FirstToLike := "Be the first to like"

  predicate IsDigit(c: char) {
    '0' <= c <= '9'
  }

  predicate AllDigits(s: string) {
    forall i :: 0 <= i < |s| ==> IsDigit(s[i])
  }

  function DigitChar(d: nat): (c: char)
    requires d < 10
    ensures IsDigit(c) && c as int - '0' as int == d
  {
    ('0' as int + d) as char
  }

  /** How JSX renders the number `n`: its decimal digits, most significant first. */
  function DecimalString(n: nat): (s: string)
    ensures |s| >= 1 && AllDigits(s)
    ensures n >= 10 <==> |s| >= 2
    ensures n >= 1 ==> s[0] != '0'
  {
    if n < 10 then [DigitChar(n)] else DecimalString(n / 10) + [DigitChar(n % 10)]
  }

  /** The number a string of decimal digits denotes. */
  function DecimalValue(s: string): nat
    requires AllDigits(s)
  {
    if s == [] then 0 else DecimalValue(s[..|s| - 1]) * 10 + (s[|s| - 1] as int - '0' as int)
  }

  /** The rendered count reads back as the number it was rendered from. */
  lemma {:induction false} DecimalRoundTrip(n: nat)
    ensures DecimalValue(DecimalString(n)) == n
  {
    var s := DecimalString(n);
    if n >= 10 {
      var prefix := DecimalString(n / 10);
      assert s[..|s| - 1] == prefix;
      DecimalRoundTrip(n / 10);
    }
  }

  /** The three conditional lines of the summary, each present only when its guard holds. */
  function SummaryLines(likes: seq<Like>): (lines: seq<string>)
    ensures |lines| == 1
    ensures |likes| > 0 ==> forall i :: 0 <= i < |lines| ==> "Liked by " + likes[0].user.userName <= lines[i]
  {
    (if |likes| == 0 then [FirstToLike] else [])
    + (if |likes| == 1 then ["Liked by " + likes[0].user.userName] else [])
    + (if |likes| > 1 then ["Liked by " + likes[0].user.userName + " and " + DecimalString(|likes| - 1) + " others"] else [])
  }

  /**
   * The one line the summary shows: "Be the first to like" exactly when there are
   * no likes, and otherwise a line naming the first liker.
   */
  function LikeSummary(likes: seq<Like>): (r: string)
    ensures r == FirstToLike <==> |likes| == 0
    ensures |likes| > 0 ==> "Liked by " + likes[0].user.userName <= r
    ensures |likes| == 1 ==> r == "Liked by " + likes[0].user.userName
  {
    var lines := SummaryLines(likes);
    assert |likes| > 0 ==> lines[0][0] == 'L';
    lines[0]
  }

  /**
   * A summary for two or more likes ends with the count of the other likers,
   * which reads back as exactly `|likes| - 1`: the number shown is the length of
   * the snapshot, not a locally adjusted count.
   */
  lemma OthersCountShown(likes: seq<Like>)
    requires |likes| > 1
    ensures var digits := DecimalString(|likes| - 1);
            LikeSummary(likes) == "Liked by " + likes[0].user.userName + " and " + digits + " others"
            && DecimalValue(digits) == |likes| - 1
  {
    DecimalRoundTrip(|likes| - 1);
  }

  lemma SummaryExamples(a: Author, b: Author, c: Author)
    ensures LikeSummary([]) == "Be the first to like"
    ensures LikeSummary([Like(a)]) == "Liked by " + a.userName
    ensures LikeSummary([Like(a), Like(b), Like(c)]) == "Liked by " + a.userName + " and 2 others"
  {
    assert DecimalString(2) == "2";
  }
}
