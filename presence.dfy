// Pure parts of the typing-presence tracker: the deduplicating append that
// the `hear_typing` listener hands to `setTypingAuthor`, and the indicator
// text built from `typingAuthor.join(", ")`.

module Presence {
  import opened ChatTypes

  /** JavaScript truthiness of a string: only the empty string is falsy. */
  predicate Truthy(s: string) {
    s != ""
  }

  /** `state.find(value => value === author)`: the first element equal to
      `author`, or nothing (JavaScript's `undefined`). */
  function Find(state: seq<string>, author: string): (r: Option<string>)
    ensures r.Some? <==> author in state
    ensures r.Some? ==> r.value == author
    decreases |state|
  {
    if state == [] then None
    else if state[0] == author then Some(state[0])
    else Find(state[1..], author)
  }

  /** The `setTypingAuthor` updater of the `hear_typing` listener: keep the
      list when `find` returns a truthy value, append `author` otherwise.
      Since the found value is `author` itself, only a non-empty author that
      is already present is not appended again. */
  function AddAuthor(state: seq<string>, author: string): (r: seq<string>)
    ensures r == if author != "" && author in state then state else state + [author]
  {
    var found := Find(state, author);
    if found.Some? && Truthy(found.value) then state else state + [author]
  }

  /** No non-empty name occurs twice (the empty name may repeat). */
  ghost predicate DistinctNames(names: seq<string>) {
    forall i, j :: 0 <= i < j < |names| && names[i] != "" ==> names[i] != names[j]
  }

  /** The updater keeps the author list free of repeated non-empty names,
      keeps the old list as a prefix and never leaves it empty. */
  lemma AddAuthorKeepsDistinct(state: seq<string>, author: string)
    requires DistinctNames(state)
    ensures DistinctNames(AddAuthor(state, author))
    ensures state <= AddAuthor(state, author) && AddAuthor(state, author) != []
  {
  }

  /** A second notice from the same non-empty author changes nothing. */
  lemma AddAuthorIdempotent(state: seq<string>, author: string)
    requires author != ""
    ensures AddAuthor(AddAuthor(state, author), author) == AddAuthor(state, author)
  {
  }

  /** The empty-string author is falsy once found, so it is appended on every
      notice. */
  lemma {:induction false} EmptyAuthorRepeats(state: seq<string>, n: nat)
    ensures RepeatNotice(state, "", n) == state + seq(n, _ => "")
    decreases n
  {
    if n > 0 {
      EmptyAuthorRepeats(state, n - 1);
      assert state + seq(n - 1, _ => "") + [""] == state + seq(n, _ => "");
    }
  }

  /** Any number of notices from one non-empty author add it at most once. */
  lemma {:induction false} NonEmptyAuthorOnce(state: seq<string>, author: string, n: nat)
    requires author != "" && n > 0
    ensures RepeatNotice(state, author, n) == AddAuthor(state, author)
    decreases n
  {
    if n > 1 {
      NonEmptyAuthorOnce(state, author, n - 1);
      AddAuthorIdempotent(state, author);
    }
  }

  /** The author list after `n` notices from the same author. */
  function RepeatNotice(state: seq<string>, author: string, n: nat): seq<string>
    decreases n
  {
    if n == 0 then state else AddAuthor(RepeatNotice(state, author, n - 1), author)
  }

  /** `parts.join(sep)` of JavaScript. */
  function JoinWith(parts: seq<string>, sep: string): (r: string)
    ensures parts == [] ==> r == ""
    ensures |parts| == 1 ==> r == parts[0]
    ensures parts != [] ==> parts[0] <= r
    decreases |parts|
  {
    if |parts| == 0 then ""
    else if |parts| == 1 then parts[0]
    else parts[0] + sep + JoinWith(parts[1..], sep)
  }

  /** `t` occurs in `s` starting at index `k`. */
  predicate OccursAt(s: string, t: string, k: nat) {
    k + |t| <= |s| && s[k..k + |t|] == t
  }

  /** Where `parts[i]` starts in `JoinWith(parts, sep)`. */
  function Offset(parts: seq<string>, sep: string, i: nat): nat
    requires i < |parts|
    decreases i
  {
    if i == 0 then 0 else |parts[0]| + |sep| + Offset(parts[1..], sep, i - 1)
  }

  /** Every part appears in the joined text, at its offset. */
  lemma {:induction false} JoinWithNamesEach(parts: seq<string>, sep: string, i: nat)
    requires i < |parts|
    ensures OccursAt(JoinWith(parts, sep), parts[i], Offset(parts, sep, i))
    decreases i
  {
    if i > 0 {
      JoinWithNamesEach(parts[1..], sep, i - 1);
      var tail := JoinWith(parts[1..], sep);
      var k := Offset(parts[1..], sep, i - 1);
      var head := parts[0] + sep;
      assert JoinWith(parts, sep) == head + tail;
      assert (head + tail)[|head| + k..|head| + k + |parts[i]|] == tail[k..k + |parts[i]|];
    }
  }

  /** Joining one more part adds the separator and that part at the end. */
  lemma {:induction false} JoinWithSnoc(parts: seq<string>, sep: string, p: string)
    requires parts != []
    ensures JoinWith(parts + [p], sep) == JoinWith(parts, sep) + sep + p
    decreases |parts|
  {
    if |parts| == 1 {
      assert parts + [p] == [parts[0], p];
      assert (parts + [p])[1..] == [p];
    } else {
      assert (parts + [p])[1..] == parts[1..] + [p];
      JoinWithSnoc(parts[1..], sep, p);
    }
  }

  const TypingSuffix: string := " Sedang Mengetik . . ."

  /** The typing indicator: no text when not typing; otherwise the authors
      joined by ", " followed by the suffix. */
  function Summary(isTyping: bool, authors: seq<string>): (r: Option<string>)
    ensures r.Some? <==> isTyping
    ensures r.Some? ==> |r.value| >= |TypingSuffix| && r.value[|r.value| - |TypingSuffix|..] == TypingSuffix
    ensures r.Some? ==> JoinWith(authors, ", ") <= r.value
    ensures r.Some? ==> |r.value| == |JoinWith(authors, ", ")| + |TypingSuffix|
  {
    if isTyping then Some(JoinWith(authors, ", ") + TypingSuffix) else None
  }

  /** The indicator names every typing author, at its place in the list. */
  lemma SummaryNamesEachAuthor(authors: seq<string>, i: nat)
    requires i < |authors|
    ensures OccursAt(Summary(true, authors).value, authors[i], Offset(authors, ", ", i))
  {
  }

  /** After a notice with `isTyped` set: the first author's text is that
      name and the suffix; a known non-empty author leaves the text as it
      was; any other author adds ", author" just before the suffix. */
  lemma SummaryAfterNotice(authors: seq<string>, author: string)
    ensures authors == [] ==>
      Summary(true, AddAuthor(authors, author)) == Some(author + TypingSuffix)
    ensures author != "" && author in authors ==>
      Summary(true, AddAuthor(authors, author)) == Summary(true, authors)
    ensures authors != [] && !(author != "" && author in authors) ==>
      Summary(true, AddAuthor(authors, author)) ==
        Some(JoinWith(authors, ", ") + ", " + author + TypingSuffix)
  {
    if authors != [] {
      JoinWithSnoc(authors, ", ", author);
    }
  }
}
