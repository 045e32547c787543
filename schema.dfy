/** Primary keys of the tables the model talks about. */
module Schema {
  type UserId = nat
  type QuestionId = nat
  type AnswerId = nat
}
