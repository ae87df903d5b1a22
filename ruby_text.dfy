/**
 * The two pieces of Ruby's String behaviour the API layer relies on:
 * `String#include?` (a substring search) and client-side comma-separated lists.
 */
module RubyText {

  /** `needle` occurs in `haystack` as a contiguous run starting at index `i`. */
  predicate OccursAt(needle: string, haystack: string, i: nat)
  {
    i + |needle| <= |haystack| && haystack[i..i + |needle|] == needle
  }

  /** Reference definition: `needle` is a substring (infix) of `haystack`. */
  ghost predicate IsInfix(needle: string, haystack: string)
  {
    exists i: nat :: OccursAt(needle, haystack, i)
  }

  /** `haystack.include?(needle)`: a left-to-right scan for `needle`, true for the empty needle. */
  function Includes(haystack: string, needle: string): bool
    decreases |haystack|
  {
    if |needle| > |haystack| then false
    else if needle <= haystack then true
    else Includes(haystack[1..], needle)
  }

  /** The scan finds exactly the substrings. */
  lemma {:induction false} IncludesIsInfix(haystack: string, needle: string)
    ensures Includes(haystack, needle) <==> IsInfix(needle, haystack)
  {
    if |needle| > |haystack| {
    } else if needle <= haystack {
      assert OccursAt(needle, haystack, 0);
    } else {
      var tail := haystack[1..];
      IncludesIsInfix(tail, needle);
      if IsInfix(needle, haystack) {
        var i: nat :| OccursAt(needle, haystack, i);
        assert i != 0;
        assert tail[i - 1..i - 1 + |needle|] == haystack[i..i + |needle|];
        assert OccursAt(needle, tail, i - 1);
      }
      if IsInfix(needle, tail) {
        var i: nat :| OccursAt(needle, tail, i);
        assert haystack[i + 1..i + 1 + |needle|] == tail[i..i + |needle|];
        assert OccursAt(needle, haystack, i + 1);
      }
    }
  }

  /** The only string the empty string includes is the empty string. */
  lemma EmptyIncludesOnlyEmpty(needle: string)
    ensures Includes("", needle) <==> needle == ""
  {
  }

  /** A client's list of codes as it appears in a query string: `tokens.join(",")`. */
  function JoinCommas(tokens: seq<string>): string
  {
    if |tokens| == 0 then ""
    else if |tokens| == 1 then tokens[0]
    else tokens[0] + "," + JoinCommas(tokens[1..])
  }

  /** A currency code of width `width` with no comma in it. */
  predicate IsCode(code: string, width: nat)
  {
    |code| == width && ',' !in code
  }

  /** A window of `|head|` characters that starts inside `head` covers the comma after it. */
  lemma CommaInWindow(head: string, tail: string, i: nat)
    requires 0 < i <= |head|
    requires i + |head| <= |head + "," + tail|
    ensures ',' in (head + "," + tail)[i..i + |head|]
  {
    var joined := head + "," + tail;
    assert joined[i..i + |head|][|head| - i] == joined[|head|] == ',';
  }

  /** A listed token occurs in the joined list. */
  lemma {:induction false} ListedIsInfix(tokens: seq<string>, key: string)
    requires key in tokens
    ensures IsInfix(key, JoinCommas(tokens))
  {
    var joined := JoinCommas(tokens);
    if key == tokens[0] {
      assert joined[..|key|] == key;
      assert OccursAt(key, joined, 0);
    } else {
      var head, tail := tokens[0], JoinCommas(tokens[1..]);
      assert joined == head + "," + tail;
      ListedIsInfix(tokens[1..], key);
      var i: nat :| OccursAt(key, tail, i);
      var j := i + |head| + 1;
      assert joined[j..j + |key|] == tail[i..i + |key|];
      assert OccursAt(key, joined, j);
    }
  }

  /** Conversely, a code that occurs in a joined list of codes of its width is one of them. */
  lemma {:induction false} InfixIsListed(tokens: seq<string>, key: string, width: nat)
    requires width > 0
    requires IsCode(key, width)
    requires forall t | t in tokens :: IsCode(t, width)
    requires IsInfix(key, JoinCommas(tokens))
    ensures key in tokens
  {
    var joined := JoinCommas(tokens);
    var i: nat :| OccursAt(key, joined, i);
    assert |tokens| > 0;
    var head := tokens[0];
    assert IsCode(head, width);
    if |tokens| == 1 {
      assert joined == head;
      assert i == 0 && key == head;
    } else {
      var tail := JoinCommas(tokens[1..]);
      assert joined == head + "," + tail;
      if i == 0 {
        assert joined[0..width] == head;
      } else if i <= width {
        CommaInWindow(head, tail, i);
        assert false;
      } else {
        var j := i - width - 1;
        assert tail[j..j + width] == joined[i..i + width];
        assert OccursAt(key, tail, j);
        InfixIsListed(tokens[1..], key, width);
      }
    }
  }

  /**
   * When every listed token and the searched key are codes of one positive width,
   * the key is a substring of the joined list exactly when it is one of the tokens.
   */
  lemma CodeInJoinedList(tokens: seq<string>, key: string, width: nat)
    requires width > 0
    requires IsCode(key, width)
    requires forall t | t in tokens :: IsCode(t, width)
    ensures IsInfix(key, JoinCommas(tokens)) <==> key in tokens
  {
    if key in tokens {
      ListedIsInfix(tokens, key);
    }
    if IsInfix(key, JoinCommas(tokens)) {
      InfixIsListed(tokens, key, width);
    }
  }
}
