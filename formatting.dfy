/** formatMessageContent: the one formatting step applied to message text
    before display, `content.replace(/\n/g, '<br>')`. */
module Formatting {

  /** Number of occurrences of `c` in `s`. */
  function Count(s: string, c: char): (n: nat)
    ensures n <= |s|
    ensures n == 0 <==> c !in s
  {
    if s == [] then 0 else (if s[0] == c then 1 else 0) + Count(s[1..], c)
  }

  /** What one character of the content turns into. */
  function Piece(c: char): string {
    if c == '\n' then "<br>" else [c]
  }

  /** Every line feed is replaced by "<br>": the result holds no line feed,
      grows by three characters per line feed, and text without line feeds
      comes back unchanged. */
  function FormatMessageContent(content: string): (r: string)
    ensures '\n' !in r
    ensures |r| == |content| + 3 * Count(content, '\n')
    ensures '\n' !in content ==> r == content
  {
    if content == [] then []
    else Piece(content[0]) + FormatMessageContent(content[1..])
  }

  /** Formatting works piece by piece. */
  lemma {:induction false} FormatAppend(a: string, b: string)
    ensures FormatMessageContent(a + b) == FormatMessageContent(a) + FormatMessageContent(b)
  {
    if a == [] {
      assert a + b == b;
    } else {
      calc {
        FormatMessageContent(a + b);
        { assert (a + b)[0] == a[0] && (a + b)[1..] == a[1..] + b; }
        Piece(a[0]) + FormatMessageContent(a[1..] + b);
        { FormatAppend(a[1..], b); }
        Piece(a[0]) + (FormatMessageContent(a[1..]) + FormatMessageContent(b));
        (Piece(a[0]) + FormatMessageContent(a[1..])) + FormatMessageContent(b);
      }
    }
  }

  /** A line feed between two pieces of text becomes "<br>" between their
      formatted forms. */
  lemma LineFeedBecomesBreak(a: string, b: string)
    ensures FormatMessageContent(a + "\n" + b)
         == FormatMessageContent(a) + "<br>" + FormatMessageContent(b)
  {
    FormatAppend(a + "\n", b);
    FormatAppend(a, "\n");
  }
}
