# QnA: users, OAuth identities and answer actions in Dafny

This project models the core of a question-and-answer web site. Users sign in with a
password or through an external identity provider. They post answers to questions,
edit and delete their own answers, accept an answer to their own question, and vote
answers up or down. The repository's implementation of these rules is not part of
this model. The model follows the behaviour its tests pin down and the Answer record.

Modules and files:

- `wrappers.dfy` (`Wrappers`): `Option` for Ruby's `nil`, and `Result` for an
  operation that can be refused.
- `schema.dfy` (`Schema`): the primary-key types.
- `text.dfy` (`Text`): Rails' `blank?` and Ruby's `String#downcase` on strings.
- `answer.dfy` (`AnswerModel`): the Answer record. It belongs to one question and one
  user, needs a present body, and has a default order with accepted answers first.
- `users.dfy` (`Users`): the class `UserStore`. It holds the users table
  (id → lower-case email), the authorizations table (provider, uid, user) and the
  question subscriptions. Its methods are `CreateUser`, `Link`, `FindForOauth` and
  `SubscribeToNewAnswers`.
- `answers_controller.dfy` (`AnswersController`): the class `Board`. It holds the
  answers and votes tables over a fixed questions table (question → author). It has one
  method per controller action: create, destroy, update, accept, upvote, downvote and
  recall_vote.

The signed-in user is an `Option<UserId>` parameter; `None` means nobody is signed in.
A refused action returns a typed error and changes nothing. The errors are
`Unauthenticated`, `NotFound`, `Forbidden`, `Conflict` and `ValidationFailed`.
Pure gate functions (`AuthorGate`, `QuestionAuthorGate`, `VoteGate`, `RecallGate`)
decide who may run destroy, update, accept, upvote, downvote and recall_vote, and each
of those methods' contracts ties its outcome to its gate. Update has one refusal
outside its gate: an author submitting a blank body gets `ValidationFailed`. Create
has no gate function: its contract names its three refusals (signed out, unknown
question, body not present) directly.
A rating is the sum of the values of the votes on an answer.

Choices made where the tests leave the behaviour open:

- `FindForOauth` matches the assertion's email against stored emails ignoring case,
  so it compares the downcased email with the lower-case stored one.
- In its new-email case, `FindForOauth` creates the user through `CreateUser`. If the
  email fails the user validations (blank, longer than 150 characters), it returns
  `None` and writes nothing. This assumes the implementation creates the user with
  `create!`, which would raise instead; the tests do not cover this case.
- A second upvote or downvote on an answer the user has already voted on is refused
  with `Conflict`. The vote must be recalled first.
- Destroying an answer leaves its votes in the table. Whether they cascade is not
  known (see "Left out").
- `order('accepted DESC')` leaves the order inside each group to the database. The
  model keeps the stored order inside each group, which makes the order a stable
  partition.

## Model

| member | source | states |
|---|---|---|
| `Text.Blank` | app/models/answer.rb:4 | definition of `blank?`: a string is blank when it is empty or whitespace only |
| `Text.Downcase` | spec/models/user_spec.rb:14-18 | the stored email has the same length as the given one, and each character is that character lowered |
| `Text.DowncaseNormalises` | spec/models/user_spec.rb:14-18 | a downcased email has no upper-case letter, and a string is its own downcase exactly when it is already lower case |
| `Text.DowncaseIdempotent` | spec/models/user_spec.rb:14-18 | storing an already stored email again leaves it unchanged |
| `Text.DowncaseExample` | spec/models/user_spec.rb:14-18 | "EMilY@GmaiL.COM" is stored as "emily@gmail.com" |
| `Users.UserStore.CreateUser` | spec/models/user_spec.rb:6-18 | a blank email, an email over 150 characters, or one already used in any letter case is refused and nothing is written; otherwise exactly one user is added, with the lower-cased email and no authorizations |
| `Users.UserStore.UserWithEmail` | spec/models/user_spec.rb:7 | finds the user whose email equals the given one ignoring case, or reports that no user has it |
| `Users.FindAuthorization` | spec/models/user_spec.rb:31-36 | finds a row with the given provider and uid, or reports that none exists |
| `Users.UserStore.Owner` | spec/models/user_spec.rb:31-36 | an identity has an owner exactly when some authorization row carries its provider and uid, and that row links it to the owner |
| `Users.AuthorizationsOf` | spec/models/user_spec.rb:50-56 | a user's authorizations are exactly the rows of the table that belong to that user: every listed row is the user's, and every row of the user is listed |
| `Users.AuthorizationsOfAppend` | spec/models/user_spec.rb:46-56 | a new authorization row becomes the last entry of its owner's list and changes no other user's list |
| `Users.AuthorizationsOfNobody` | spec/models/user_spec.rb:80-90 | a user that no row points to has an empty authorization list |
| `Users.UserStore.AuthorizationsFor` | spec/models/user_spec.rb:46-56 | `user.authorizations`: exactly the rows of the table that belong to the user |
| `Users.UserStore.SubscribedTo` | spec/models/user_spec.rb:131-143 | definition of `subscribed_to?`: true exactly when the (user, question) pair is in the subscriptions table |
| `Users.FindAppended` | spec/models/user_spec.rb:31-36 | once a row for a new (provider, uid) pair is appended, the lookup finds that row |
| `Users.UserStore.Link` | spec/models/user_spec.rb:33 | linking an unknown identity to a user appends one row, adds it at the end of that user's list only, and makes the user its owner |
| `Users.UserStore.FindForOauth` | spec/models/user_spec.rb:27-103 | four cases. (1) An identity already linked returns its owner and writes nothing. (2) An email matching a user returns that user, adds no user, and adds one authorization with the assertion's provider and uid at the end of that user's list. (3) A new email creates exactly one user, storing the email in lower case (an already lower-case email is kept verbatim); the user's only authorization carries the provider and uid. (4) No email returns nil and writes nothing. A returned user owns the identity afterwards, so a repeated call takes case 1 |
| `Users.UserStore.AllBut` | spec/models/user_spec.rb:105-118 | the result contains every other user and never the given one |
| `Users.UserStore.constructor` | spec/models/user_spec.rb:140-142 | a fresh store has no users, authorizations or subscriptions, so no user is subscribed to anything |
| `Users.UserStore.SubscribeToNewAnswers` | spec/models/user_spec.rb:145-154 | afterwards the user is subscribed to the question; every other pair keeps its subscription state; subscribing twice is subscribing once |
| `AnswerModel.BodyPresent` | app/models/answer.rb:4 | definition of the presence rule on a submitted body: present when given and not blank; a present body is never nil or empty |
| `AnswerModel.Saveable` | app/models/answer.rb:4 | definition: a stored answer passes the presence validation of its body |
| `AnswerModel.DefaultOrder` | app/models/answer.rb:5 | every accepted answer comes before every unaccepted one, and the result is a permutation of the answers |
| `AnswerModel.DefaultOrderKeepsOrdered` | app/models/answer.rb:5 | under the model's stable order, answers already accepted-first are returned in the same order (the database leaves ties unordered, so this holds of the model's choice, not of every database) |
| `AnswerModel.DefaultOrderIdempotent` | app/models/answer.rb:5 | applying the model's stable order twice is applying it once |
| `AnswersController.AuthorOnly` | spec/controllers/answers_controller_spec.rb:54-86 | allowed exactly when the signed-in user is the author; nobody signed in gives Unauthenticated, anyone else gives Forbidden |
| `AnswersController.NonAuthorOnly` | spec/controllers/answers_controller_spec.rb:197-215 | allowed exactly when a signed-in user other than the author acts; nobody signed in gives Unauthenticated, the author gives Forbidden |
| `AnswersController.Rating` | spec/controllers/answers_controller_spec.rb:188-190 | `answer.rating`: an answer no vote points to has rating 0; when every vote is between -1 and +1, the rating lies between minus and plus the answer's vote count |
| `AnswersController.VotesOn` | spec/controllers/answers_controller_spec.rb:262-264 | `answer.votes.count`: at most the size of the votes table, and 0 for an answer no vote points to |
| `AnswersController.VotesBy` | spec/controllers/answers_controller_spec.rb:258-260 | `user.votes.count`: at most the size of the votes table, and 0 for a user with no vote |
| `AnswersController.FindVote` | spec/controllers/answers_controller_spec.rb:252-264 | finds the user's vote on the answer, or reports that the user has none |
| `AnswersController.Without` | spec/controllers/answers_controller_spec.rb:258-264 | deleting one vote row keeps all other rows in order |
| `AnswersController.TalliesConcat` | spec/controllers/answers_controller_spec.rb:184-264 | the rating, the answer's vote count and the user's vote count add up over a split of the votes table |
| `AnswersController.CastTallies` | spec/controllers/answers_controller_spec.rb:184-249 | a new vote changes its answer's rating by the vote's value and adds one to its answer's and its voter's counts; other answers and users are unaffected |
| `AnswersController.RecallTallies` | spec/controllers/answers_controller_spec.rb:252-264 | deleting a vote takes one off its voter's and its answer's counts and removes its value from the rating; other answers and users are unaffected |
| `AnswersController.Board.AnswersOf` | spec/controllers/answers_controller_spec.rb:20-22 | `question.answers`: a set of existing answers |
| `AnswersController.Board.AnswersBy` | spec/controllers/answers_controller_spec.rb:24-26 | `user.answers`: a set of existing answers |
| `AnswersController.Board.RatingOf` | spec/controllers/answers_controller_spec.rb:188-190 | `answer.rating` on the board: 0 when no vote points to the answer, and, when every vote is +1 or -1 as on a valid board, between minus and plus the answer's vote count |
| `AnswersController.Board.AuthorGate` | spec/controllers/answers_controller_spec.rb:54-135 | destroy and update go ahead exactly when a signed-in user is the existing answer's author |
| `AnswersController.Board.QuestionAuthorGate` | spec/controllers/answers_controller_spec.rb:137-182 | accept goes ahead exactly when a signed-in user is the author of the answer's question |
| `AnswersController.Board.VoteGate` | spec/controllers/answers_controller_spec.rb:184-250 | a vote goes ahead exactly when a signed-in non-author has no vote on the answer yet; the author gets Forbidden, a repeated vote gets Conflict |
| `AnswersController.Board.RecallGate` | spec/controllers/answers_controller_spec.rb:252-285 | a recall goes ahead exactly when a signed-in non-author has a vote on the answer; the author gets Forbidden, a missing vote gets Conflict |
| `AnswersController.Board.constructor` | spec/controllers/answers_controller_spec.rb:5-8 | a board over the given questions starts with no answers and no votes |
| `AnswersController.Board.Create` | spec/controllers/answers_controller_spec.rb:10-52 | when signed out, or with a nil or blank body (the presence validation of app/models/answer.rb:4), nothing is written; an unknown question gives NotFound. A signed-in user with a present body on a known question always succeeds: exactly one unaccepted answer is added, with rating 0 and no votes, with the given body, belonging to the question and to the user (the two `belongs_to` of app/models/answer.rb:2-3), in the question's answers and the user's answers, whose counts each grow by one |
| `AnswersController.Board.Destroy` | spec/controllers/answers_controller_spec.rb:54-86 | the author removes exactly that answer, so the count drops by one; a non-author or signed-out caller changes nothing |
| `AnswersController.Board.Update` | spec/controllers/answers_controller_spec.rb:88-135 | the author with a present body always succeeds and replaces the body, changing nothing else; a non-author or signed-out caller, or a blank body, leaves the stored answer unchanged |
| `AnswersController.Board.Accept` | spec/controllers/answers_controller_spec.rb:137-182 | the question's author sets the answer's accepted flag to true; anyone else leaves every answer unchanged |
| `AnswersController.Board.Cast` | spec/controllers/answers_controller_spec.rb:184-250 | an admitted vote appends one row and moves the rating by the vote's value; a refused one writes nothing |
| `AnswersController.Board.Upvote` | spec/controllers/answers_controller_spec.rb:184-216 | a signed-in non-author who has not voted on it yet raises the rating by exactly one; when signed out, the author, or already voted (`Conflict`), the rating is unchanged |
| `AnswersController.Board.Downvote` | spec/controllers/answers_controller_spec.rb:218-250 | a signed-in non-author who has not voted on it yet lowers the rating by exactly one; when signed out, the author, or already voted (`Conflict`), the rating is unchanged |
| `AnswersController.Board.RecallVote` | spec/controllers/answers_controller_spec.rb:252-285 | after a prior vote, exactly one vote goes, from the user's and the answer's votes alike. When signed out or the author, the votes table is unchanged |

## Left out

- The implementations of `User.find_for_oauth`, the User model and the answers controller are not part of this model. Their behaviour is taken from spec/models/user_spec.rb and spec/controllers/answers_controller_spec.rb.
- `Users.UserStore.CreateUser`: the email format rule (spec/models/user_spec.rb:9-12) is omitted. `CreateUser` accepts emails that test rejects, such as 'user@example,com'. The regular expression behind the rule is not part of this model.
- `Text.Downcase` lowers only ASCII letters, as Ruby's `downcase` did before Ruby 2.4. Unicode case mapping is not modelled.
- `Text.Blank` knows only ASCII whitespace (space, tab, line feed, vertical tab, form feed, carriage return), not the other Unicode spaces that Rails' `blank?` also skips.
- `User.send_daily_digest` (spec/models/user_spec.rb:120-129) is left out. It calls a mailer through a job runner.
- Destroying a user and its cascades (spec/models/user_spec.rb:20-25) are not modelled. No tested operation destroys a user.
- Comments are left out: no modelled operation creates, reads or deletes them.
- HTTP statuses, redirects, rendered templates, `assigns`, flash messages and the OmniAuth callback controller are left out. They are rendering and framework plumbing. The callback's only branch is whether `find_for_oauth` returned a user.
- `Users.UserStore.FindForOauth`: when a new email fails the user validations, it returns nil and writes nothing. If the implementation uses `create!`, as assumed here, it would raise an exception instead.
- `AnswersController.Board.Accept`: it does not clear a previously accepted answer of the same question. Neither spec/controllers/answers_controller_spec.rb nor app/models/answer.rb states that rule, so "at most one accepted answer per question" is not an invariant here.
- Questions are a fixed table of question → author in `Board`. Creating and editing questions is outside the answers controller.
- `AnswersController.Board.Destroy`: it leaves the answer's votes in the table, but whether they cascade is unknown. `app/models/answer.rb` declares no votes association, yet the controller tests call `rating`, `votes` and `upvote_by` on answers (spec/controllers/answers_controller_spec.rb:189, 256, 259, 263). So the tests run against an Answer model with votes, which that file does not declare, and its dependent rule is not known.
- `AnswersController.Board.Create`: publishing the new answer to the question's page (`it_behaves_like "publishing"`, spec/controllers/answers_controller_spec.rb:17) is left out. The shared example is not part of this model, and it is a message to subscribers rather than a change to the tables.
- Concurrency, transactions and database uniqueness races are not modelled. Every action runs alone on the tables.
