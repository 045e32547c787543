/**
 * The answer actions of the question-and-answer site
 * (spec/controllers/answers_controller_spec.rb): create, destroy, update,
 * accept, upvote, downvote and recall_vote. Each action is taken on behalf
 * of the signed-in user, if any, checks who that user is against the
 * answer's author (or the question's author for accept) and either changes
 * the answers and votes tables or is refused without changing anything.
 */
module AnswersController {
  import opened Wrappers
  import opened Schema
  import opened AnswerModel

  /** One row of the votes table: `voter` gave `value` (+1 or -1) to `answer`. */
  datatype Vote = Vote(voter: UserId, answer: AnswerId, value: int)

  /** Why an action was refused: nobody signed in, no such row, wrong user,
      a vote already cast or none to recall, or a blank body. */
  datatype Error = Unauthenticated | NotFound | Forbidden | Conflict | ValidationFailed

  /** The result of an action that returns no value. */
  datatype Outcome = Done | Rejected(error: Error)

  /** The gate of actions reserved to the author: a signed-in user who is `author`. */
  function AuthorOnly(current: Option<UserId>, author: UserId): (r: Outcome)
    ensures r == Done <==> current == Some(author)
    ensures r == Rejected(Unauthenticated) <==> current.None?
    ensures r != Done && current.Some? ==> r == Rejected(Forbidden)
  {
    match current
    case None => Rejected(Unauthenticated)
    case Some(u) => if u == author then Done else Rejected(Forbidden)
  }

  /** The gate of voting: a signed-in user who is not `author`. */
  function NonAuthorOnly(current: Option<UserId>, author: UserId): (r: Outcome)
    ensures r == Done <==> current.Some? && current.value != author
    ensures r == Rejected(Unauthenticated) <==> current.None?
    ensures r != Done && current.Some? ==> r == Rejected(Forbidden)
  {
    match current
    case None => Rejected(Unauthenticated)
    case Some(u) => if u != author then Done else Rejected(Forbidden)
  }

  /** `answer.rating`: the sum of the values of the votes on answer `a`. */
  function Rating(votes: seq<Vote>, a: AnswerId): (r: int)
    ensures (forall i :: 0 <= i < |votes| ==> votes[i].answer != a) ==> r == 0
    ensures (forall i :: 0 <= i < |votes| ==> -1 <= votes[i].value <= 1) ==>
      -(VotesOn(votes, a) as int) <= r <= VotesOn(votes, a)
  {
    if votes == [] then 0
    else (if votes[0].answer == a then votes[0].value else 0) + Rating(votes[1..], a)
  }

  /** `answer.votes.count`. */
  function VotesOn(votes: seq<Vote>, a: AnswerId): (r: nat)
    ensures r <= |votes|
    ensures (forall i :: 0 <= i < |votes| ==> votes[i].answer != a) ==> r == 0
  {
    if votes == [] then 0
    else (if votes[0].answer == a then 1 else 0) + VotesOn(votes[1..], a)
  }

  /** `user.votes.count`. */
  function VotesBy(votes: seq<Vote>, u: UserId): (r: nat)
    ensures r <= |votes|
    ensures (forall i :: 0 <= i < |votes| ==> votes[i].voter != u) ==> r == 0
  {
    if votes == [] then 0
    else (if votes[0].voter == u then 1 else 0) + VotesBy(votes[1..], u)
  }

  /** The position of `u`'s vote on answer `a`, if `u` has voted on it. */
  function FindVote(votes: seq<Vote>, u: UserId, a: AnswerId): (r: Option<nat>)
    ensures r.Some? ==> r.value < |votes| && votes[r.value].voter == u && votes[r.value].answer == a
    ensures r.None? ==> forall i :: 0 <= i < |votes| ==> !(votes[i].voter == u && votes[i].answer == a)
  {
    if votes == [] then None
    else if votes[0].voter == u && votes[0].answer == a then Some(0)
    else match FindVote(votes[1..], u, a)
      case None => None
      case Some(i) => Some(i + 1)
  }

  /** The votes table with the row at position `i` deleted. */
  function Without(votes: seq<Vote>, i: nat): (r: seq<Vote>)
    requires i < |votes|
    ensures |r| == |votes| - 1
    ensures forall k :: 0 <= k < i ==> r[k] == votes[k]
    ensures forall k :: i <= k < |r| ==> r[k] == votes[k + 1]
  {
    votes[..i] + votes[i + 1..]
  }

  /** At most one vote per (user, answer) pair, the unique index of the votes table. */
  predicate OneVotePerPair(votes: seq<Vote>)
  {
    forall i, j :: 0 <= i < j < |votes| ==>
      !(votes[i].voter == votes[j].voter && votes[i].answer == votes[j].answer)
  }

  /** Rating and both vote counts add up over a split of the votes table. */
  lemma {:induction false} TalliesConcat(s: seq<Vote>, t: seq<Vote>, u: UserId, a: AnswerId)
    ensures Rating(s + t, a) == Rating(s, a) + Rating(t, a)
    ensures VotesOn(s + t, a) == VotesOn(s, a) + VotesOn(t, a)
    ensures VotesBy(s + t, u) == VotesBy(s, u) + VotesBy(t, u)
  {
    if s == [] {
      assert s + t == t;
    } else {
      assert (s + t)[1..] == s[1..] + t;
      TalliesConcat(s[1..], t, u, a);
    }
  }

  /** Casting vote `v` moves the rating of its answer by its value, adds one
      to its answer's and its voter's counts, and touches nothing else. */
  lemma CastTallies(votes: seq<Vote>, v: Vote, u: UserId, a: AnswerId)
    ensures Rating(votes + [v], a) == Rating(votes, a) + (if v.answer == a then v.value else 0)
    ensures VotesOn(votes + [v], a) == VotesOn(votes, a) + (if v.answer == a then 1 else 0)
    ensures VotesBy(votes + [v], u) == VotesBy(votes, u) + (if v.voter == u then 1 else 0)
  {
    TalliesConcat(votes, [v], u, a);
    assert [v][1..] == [];
  }

  /** Deleting the vote at `i` takes its value off its answer's rating and one
      off its answer's and its voter's counts, and touches nothing else. */
  lemma RecallTallies(votes: seq<Vote>, i: nat, u: UserId, a: AnswerId)
    requires i < |votes|
    ensures Rating(Without(votes, i), a) ==
      Rating(votes, a) - (if votes[i].answer == a then votes[i].value else 0)
    ensures VotesOn(Without(votes, i), a) == VotesOn(votes, a) - (if votes[i].answer == a then 1 else 0)
    ensures VotesBy(Without(votes, i), u) == VotesBy(votes, u) - (if votes[i].voter == u then 1 else 0)
  {
    var before, after := votes[..i], votes[i + 1..];
    assert votes == before + ([votes[i]] + after);
    assert Without(votes, i) == before + after;
    TalliesConcat(before, [votes[i]] + after, u, a);
    TalliesConcat([votes[i]], after, u, a);
    TalliesConcat(before, after, u, a);
    assert ([votes[i]] + after)[1..] == after;
  }

  /** The answers and votes tables, beside the questions they hang off. */
  class Board {
    /** The questions table, seen from here: question id to its author. */
    const questions: map<QuestionId, UserId>
    /** The answers table. */
    var answers: map<AnswerId, Answer>
    /** The votes table, in creation order. */
    var votes: seq<Vote>
    /** The id the next created answer receives. */
    var nextAnswerId: AnswerId

    /** Every answer belongs to a known question and has a present body; every
        vote is +1 or -1, is on an answer id already handed out, and there is
        at most one per (user, answer). */
    ghost predicate Valid()
      reads this
    {
      && (forall id :: id in answers ==>
            id < nextAnswerId && answers[id].question in questions && Saveable(answers[id]))
      && OneVotePerPair(votes)
      && (forall i :: 0 <= i < |votes| ==> votes[i].value == 1 || votes[i].value == -1)
      && (forall i :: 0 <= i < |votes| ==> votes[i].answer < nextAnswerId)
    }

    /** A board over the given questions, with no answers and no votes yet. */
    constructor (questions: map<QuestionId, UserId>)
      ensures Valid()
      ensures this.questions == questions && answers == map[] && votes == []
    {
      this.questions := questions;
      answers := map[];
      votes := [];
      nextAnswerId := 0;
    }

    /** `question.answers` as a set of ids. */
    function AnswersOf(q: QuestionId): (r: set<AnswerId>)
      reads this
      ensures r <= answers.Keys
    {
      set id | id in answers && answers[id].question == q
    }

    /** `user.answers` as a set of ids. */
    function AnswersBy(u: UserId): (r: set<AnswerId>)
      reads this
      ensures r <= answers.Keys
    {
      set id | id in answers && answers[id].author == u
    }

    /** `answer.rating`: with every vote +1 or -1, as on a valid board, the
        rating lies between minus and plus the answer's vote count. */
    function RatingOf(id: AnswerId): (r: int)
      reads this
      ensures (forall i :: 0 <= i < |votes| ==> votes[i].value == 1 || votes[i].value == -1) ==>
        -(VotesOn(votes, id) as int) <= r <= VotesOn(votes, id)
      ensures (forall i :: 0 <= i < |votes| ==> votes[i].answer != id) ==> r == 0
    {
      Rating(votes, id)
    }

    /** The gate of destroy and update: the answer exists and the signed-in user wrote it. */
    function AuthorGate(current: Option<UserId>, id: AnswerId): (r: Outcome)
      reads this
      ensures r == Done <==> current.Some? && id in answers && answers[id].author == current.value
      ensures current.None? ==> r == Rejected(Unauthenticated)
      ensures current.Some? && id !in answers ==> r == Rejected(NotFound)
    {
      if current.None? then Rejected(Unauthenticated)
      else if id !in answers then Rejected(NotFound)
      else AuthorOnly(current, answers[id].author)
    }

    /** The gate of accept: the answer exists and the signed-in user wrote its question. */
    function QuestionAuthorGate(current: Option<UserId>, id: AnswerId): (r: Outcome)
      reads this
      requires Valid()
      ensures r == Done <==>
        current.Some? && id in answers && questions[answers[id].question] == current.value
      ensures current.None? ==> r == Rejected(Unauthenticated)
      ensures current.Some? && id !in answers ==> r == Rejected(NotFound)
    {
      if current.None? then Rejected(Unauthenticated)
      else if id !in answers then Rejected(NotFound)
      else AuthorOnly(current, questions[answers[id].question])
    }

    /** The gate of upvote and downvote: the answer exists, the signed-in user
        did not write it and has no vote on it yet. */
    function VoteGate(current: Option<UserId>, id: AnswerId): (r: Outcome)
      reads this
      ensures r == Done <==>
        current.Some? && id in answers && answers[id].author != current.value &&
        FindVote(votes, current.value, id).None?
      ensures current.None? ==> r == Rejected(Unauthenticated)
      ensures current.Some? && id in answers && answers[id].author == current.value ==> r == Rejected(Forbidden)
      ensures (current.Some? && id in answers && answers[id].author != current.value &&
               FindVote(votes, current.value, id).Some?) ==> r == Rejected(Conflict)
    {
      if current.None? then Rejected(Unauthenticated)
      else if id !in answers then Rejected(NotFound)
      else if NonAuthorOnly(current, answers[id].author).Rejected? then NonAuthorOnly(current, answers[id].author)
      else if FindVote(votes, current.value, id).Some? then Rejected(Conflict)
      else Done
    }

    /** The gate of recall_vote: the answer exists, the signed-in user did not
        write it and has a vote on it to take back. */
    function RecallGate(current: Option<UserId>, id: AnswerId): (r: Outcome)
      reads this
      ensures r == Done <==>
        current.Some? && id in answers && answers[id].author != current.value &&
        FindVote(votes, current.value, id).Some?
      ensures current.None? ==> r == Rejected(Unauthenticated)
      ensures current.Some? && id in answers && answers[id].author == current.value ==> r == Rejected(Forbidden)
      ensures (current.Some? && id in answers && answers[id].author != current.value &&
               FindVote(votes, current.value, id).None?) ==> r == Rejected(Conflict)
    {
      if current.None? then Rejected(Unauthenticated)
      else if id !in answers then Rejected(NotFound)
      else if NonAuthorOnly(current, answers[id].author).Rejected? then NonAuthorOnly(current, answers[id].author)
      else if FindVote(votes, current.value, id).None? then Rejected(Conflict)
      else Done
    }

    /** POST create: a signed-in user answers question `q` with `body`. The new
        answer belongs to `q` and to the user, and is not accepted. */
    method Create(current: Option<UserId>, q: QuestionId, body: Option<string>)
      returns (r: Result<AnswerId, Error>)
      requires Valid()
      modifies this
      ensures Valid()
      ensures votes == old(votes)
      ensures current.None? ==> r == Err(Unauthenticated)
      ensures current.Some? && q !in questions ==> r == Err(NotFound)
      ensures current.Some? && q in questions && !BodyPresent(body) ==> r == Err(ValidationFailed)
      ensures r.Ok? <==> current.Some? && q in questions && BodyPresent(body)
      ensures r.Err? ==> answers == old(answers)
      ensures r.Ok? ==> RatingOf(r.value) == 0 && VotesOn(votes, r.value) == 0
      ensures r.Ok? ==>
        && current.Some? && q in questions && BodyPresent(body)
        && r.value !in old(answers)
        && answers == old(answers)[r.value := Answer(q, current.value, body.value, false)]
        && |answers| == |old(answers)| + 1
        && AnswersOf(q) == old(AnswersOf(q)) + {r.value}
        && |AnswersOf(q)| == |old(AnswersOf(q))| + 1
        && AnswersBy(current.value) == old(AnswersBy(current.value)) + {r.value}
        && |AnswersBy(current.value)| == |old(AnswersBy(current.value))| + 1
    {
      if current.None? {
        return Err(Unauthenticated);
      }
      if q !in questions {
        return Err(NotFound);
      }
      if !BodyPresent(body) {
        return Err(ValidationFailed);
      }
      var id := Insert(Answer(q, current.value, body.value, false));
      r := Ok(id);
    }

    /** Saving a new answer row under the next free id. The id was never handed
        out, so no vote points to it yet. */
    method Insert(answer: Answer) returns (id: AnswerId)
      requires Valid() && answer.question in questions && Saveable(answer)
      modifies this
      ensures Valid()
      ensures votes == old(votes)
      ensures id !in old(answers) && answers == old(answers)[id := answer]
      ensures |answers| == |old(answers)| + 1
      ensures forall i :: 0 <= i < |votes| ==> votes[i].answer != id
      ensures AnswersOf(answer.question) == old(AnswersOf(answer.question)) + {id}
      ensures |AnswersOf(answer.question)| == |old(AnswersOf(answer.question))| + 1
      ensures AnswersBy(answer.author) == old(AnswersBy(answer.author)) + {id}
      ensures |AnswersBy(answer.author)| == |old(AnswersBy(answer.author))| + 1
    {
      id := nextAnswerId;
      ghost var ofQuestion, byUser := AnswersOf(answer.question), AnswersBy(answer.author);
      assert id !in answers && id !in ofQuestion && id !in byUser;
      answers := answers[id := answer];
      nextAnswerId := nextAnswerId + 1;
      assert AnswersOf(answer.question) == ofQuestion + {id};
      assert AnswersBy(answer.author) == byUser + {id};
    }

    /** DELETE destroy: the author removes the answer. */
    method Destroy(current: Option<UserId>, id: AnswerId) returns (r: Outcome)
      requires Valid()
      modifies this
      ensures Valid()
      ensures votes == old(votes)
      ensures r == old(AuthorGate(current, id))
      ensures r.Rejected? ==> answers == old(answers)
      ensures r == Done ==> answers == old(answers) - {id} && |answers| == |old(answers)| - 1
    {
      r := AuthorGate(current, id);
      if r == Done {
        answers := answers - {id};
      }
    }

    /** PATCH update: the author replaces the body with a present one. */
    method Update(current: Option<UserId>, id: AnswerId, body: Option<string>) returns (r: Outcome)
      requires Valid()
      modifies this
      ensures Valid()
      ensures votes == old(votes)
      ensures old(AuthorGate(current, id)).Rejected? ==> r == old(AuthorGate(current, id))
      ensures old(AuthorGate(current, id)) == Done && !BodyPresent(body) ==> r == Rejected(ValidationFailed)
      ensures old(AuthorGate(current, id)) == Done && BodyPresent(body) ==> r == Done
      ensures r.Rejected? ==> answers == old(answers)
      ensures r == Done ==>
        && id in old(answers) && BodyPresent(body)
        && answers == old(answers)[id := old(answers)[id].(body := body.value)]
    {
      r := AuthorGate(current, id);
      if r == Done {
        if !BodyPresent(body) {
          r := Rejected(ValidationFailed);
        } else {
          answers := answers[id := answers[id].(body := body.value)];
        }
      }
    }

    /** PATCH accept: the author of the question marks the answer accepted. */
    method Accept(current: Option<UserId>, id: AnswerId) returns (r: Outcome)
      requires Valid()
      modifies this
      ensures Valid()
      ensures votes == old(votes)
      ensures r == old(QuestionAuthorGate(current, id))
      ensures r.Rejected? ==> answers == old(answers)
      ensures r == Done ==> id in old(answers) && answers == old(answers)[id := old(answers)[id].(accepted := true)]
    {
      r := QuestionAuthorGate(current, id);
      if r == Done {
        answers := answers[id := answers[id].(accepted := true)];
      }
    }

    /** Casting a vote of `value` on answer `id`: shared by upvote and downvote. */
    method Cast(current: Option<UserId>, id: AnswerId, value: int) returns (r: Outcome)
      requires Valid() && (value == 1 || value == -1)
      modifies this
      ensures Valid()
      ensures answers == old(answers)
      ensures r == old(VoteGate(current, id))
      ensures r.Rejected? ==> votes == old(votes)
      ensures r == Done ==>
        && current.Some?
        && votes == old(votes) + [Vote(current.value, id, value)]
        && RatingOf(id) == old(RatingOf(id)) + value
        && VotesOn(votes, id) == VotesOn(old(votes), id) + 1
        && VotesBy(votes, current.value) == VotesBy(old(votes), current.value) + 1
        && (forall b :: b != id ==> RatingOf(b) == old(RatingOf(b)))
    {
      r := VoteGate(current, id);
      if r == Done {
        var v := Vote(current.value, id, value);
        forall b {
          CastTallies(votes, v, current.value, b);
        }
        votes := votes + [v];
      }
    }

    /** PATCH upvote: a signed-in user who did not write the answer raises its rating by one. */
    method Upvote(current: Option<UserId>, id: AnswerId) returns (r: Outcome)
      requires Valid()
      modifies this
      ensures Valid()
      ensures answers == old(answers)
      ensures r == old(VoteGate(current, id))
      ensures r.Rejected? ==> votes == old(votes) && RatingOf(id) == old(RatingOf(id))
      ensures r == Done ==>
        && current.Some?
        && votes == old(votes) + [Vote(current.value, id, 1)]
        && RatingOf(id) == old(RatingOf(id)) + 1
        && (forall b :: b != id ==> RatingOf(b) == old(RatingOf(b)))
    {
      r := Cast(current, id, 1);
    }

    /** PATCH downvote: a signed-in user who did not write the answer lowers its rating by one. */
    method Downvote(current: Option<UserId>, id: AnswerId) returns (r: Outcome)
      requires Valid()
      modifies this
      ensures Valid()
      ensures answers == old(answers)
      ensures r == old(VoteGate(current, id))
      ensures r.Rejected? ==> votes == old(votes) && RatingOf(id) == old(RatingOf(id))
      ensures r == Done ==>
        && current.Some?
        && votes == old(votes) + [Vote(current.value, id, -1)]
        && RatingOf(id) == old(RatingOf(id)) - 1
        && (forall b :: b != id ==> RatingOf(b) == old(RatingOf(b)))
    {
      r := Cast(current, id, -1);
    }

    /** PATCH recall_vote: a signed-in user who did not write the answer takes
        back their vote on it: exactly one vote goes, from both the user's
        and the answer's votes, and the rating loses that vote's value. */
    method RecallVote(current: Option<UserId>, id: AnswerId) returns (r: Outcome)
      requires Valid()
      modifies this
      ensures Valid()
      ensures answers == old(answers)
      ensures r == old(RecallGate(current, id))
      ensures r.Rejected? ==> votes == old(votes)
      ensures r == Done ==>
        && current.Some? && FindVote(old(votes), current.value, id).Some?
        && votes == Without(old(votes), FindVote(old(votes), current.value, id).value)
        && |votes| == |old(votes)| - 1
        && VotesBy(votes, current.value) == VotesBy(old(votes), current.value) - 1
        && VotesOn(votes, id) == VotesOn(old(votes), id) - 1
        && RatingOf(id) == old(RatingOf(id)) - old(votes)[FindVote(old(votes), current.value, id).value].value
        && (forall b :: b != id ==> RatingOf(b) == old(RatingOf(b)))
    {
      r := RecallGate(current, id);
      if r == Done {
        var i := FindVote(votes, current.value, id).value;
        RecallTallies(votes, i, current.value, id);
        forall b {
          RecallTallies(votes, i, current.value, b);
        }
        DeleteVote(i);
      }
    }

    /** Deleting the vote row at position `i`; every table constraint still holds. */
    method DeleteVote(i: nat)
      requires Valid() && i < |votes|
      modifies this
      ensures Valid()
      ensures answers == old(answers)
      ensures votes == Without(old(votes), i)
    {
      votes := Without(votes, i);
    }
  }
}
