/**
 * The Answer record (app/models/answer.rb): it belongs to one question and
 * one user, its body must be present, and answers are read back with the
 * accepted ones first.
 */
module AnswerModel {
  import opened Wrappers
  import opened Schema
  import Text

  /** One row of the answers table. The question and the author are plain
      fields, so every answer belongs to exactly one of each. */
  datatype Answer = Answer(question: QuestionId, author: UserId, body: string, accepted: bool)

  /** The presence validation of the body (app/models/answer.rb:4) on a submitted body, which may be nil. */
  predicate BodyPresent(body: Option<string>)
    ensures BodyPresent(body) ==> body.Some? && body.value != []
  {
    body.Some? && !Text.Blank(body.value)
  }

  /** A stored answer passes the presence validation. */
  predicate Saveable(a: Answer)
  {
    BodyPresent(Some(a.body))
  }

  /** The answers of `s` whose `accepted` flag equals `flag`, in their stored order. */
  function WithAccepted(s: seq<Answer>, flag: bool): (r: seq<Answer>)
    ensures forall i :: 0 <= i < |r| ==> r[i].accepted == flag
  {
    if s == [] then []
    else (if s[0].accepted == flag then [s[0]] else []) + WithAccepted(s[1..], flag)
  }

  /** Splitting by the flag loses and invents nothing. */
  lemma {:induction false} WithAcceptedSplits(s: seq<Answer>)
    ensures multiset(WithAccepted(s, true)) + multiset(WithAccepted(s, false)) == multiset(s)
  {
    if s != [] {
      WithAcceptedSplits(s[1..]);
      assert s == [s[0]] + s[1..];
    }
  }

  /** The default scope (app/models/answer.rb:5): accepted answers come before
      unaccepted ones and the result is a reordering of the input. Within each
      group the stored order is kept. */
  function DefaultOrder(s: seq<Answer>): (r: seq<Answer>)
    ensures AcceptedFirst(r)
    ensures multiset(r) == multiset(s)
    ensures |r| == |s|
  {
    WithAcceptedSplits(s);
    assert |multiset(s)| == |s|;
    WithAccepted(s, true) + WithAccepted(s, false)
  }

  /** Accepted answers first: no unaccepted answer precedes an accepted one. */
  predicate AcceptedFirst(s: seq<Answer>)
  {
    forall i, j :: 0 <= i < j < |s| && s[j].accepted ==> s[i].accepted
  }

  /** Dropping the first answer keeps a list accepted-first. */
  lemma AcceptedFirstTail(s: seq<Answer>)
    requires s != [] && AcceptedFirst(s)
    ensures AcceptedFirst(s[1..])
  {
  }

  /** In an accepted-first list that starts with an unaccepted answer, no answer is accepted. */
  lemma NoneAcceptedAfterUnaccepted(s: seq<Answer>)
    requires s != [] && AcceptedFirst(s) && !s[0].accepted
    ensures forall k :: 0 <= k < |s| ==> !s[k].accepted
  {
  }

  /** Splitting an accepted-first list by the flag and joining the parts gives it back. */
  lemma {:induction false} OrderedSplitRejoins(s: seq<Answer>)
    requires AcceptedFirst(s)
    ensures WithAccepted(s, true) + WithAccepted(s, false) == s
  {
    if s == [] {
    } else if s[0].accepted {
      var tail := s[1..];
      AcceptedFirstTail(s);
      OrderedSplitRejoins(tail);
      var acc, rest := WithAccepted(tail, true), WithAccepted(tail, false);
      calc {
        WithAccepted(s, true) + WithAccepted(s, false);
        ([s[0]] + acc) + rest;
        [s[0]] + (acc + rest);
        [s[0]] + tail;
        s;
      }
    } else {
      NoneAcceptedAfterUnaccepted(s);
      FilterNone(s, true);
      FilterAll(s, false);
    }
  }

  /** A list already in the default order is left as it is. */
  lemma DefaultOrderKeepsOrdered(s: seq<Answer>)
    requires AcceptedFirst(s)
    ensures DefaultOrder(s) == s
  {
    OrderedSplitRejoins(s);
  }

  /** Ordering an already ordered list changes nothing. */
  lemma DefaultOrderIdempotent(s: seq<Answer>)
    ensures DefaultOrder(DefaultOrder(s)) == DefaultOrder(s)
  {
    DefaultOrderKeepsOrdered(DefaultOrder(s));
  }

  lemma {:induction false} FilterAll(s: seq<Answer>, flag: bool)
    requires forall i :: 0 <= i < |s| ==> s[i].accepted == flag
    ensures WithAccepted(s, flag) == s
  {
    if s != [] {
      FilterAll(s[1..], flag);
    }
  }

  lemma {:induction false} FilterNone(s: seq<Answer>, flag: bool)
    requires forall i :: 0 <= i < |s| ==> s[i].accepted != flag
    ensures WithAccepted(s, flag) == []
  {
    if s != [] {
      FilterNone(s[1..], flag);
    }
  }

}
