/** The connection to the database, seen from the proxy. */
module Backends {
  import opened Values

  /** A backend is the sequence of what it is going to answer; None stands for a failed exchange. */
  class Backend {
    var answers: seq<Option<Doc>>
    var sent: seq<Doc>

    constructor (answers: seq<Option<Doc>>)
      ensures this.answers == answers && sent == []
    {
      this.answers := answers;
      sent := [];
    }

    method Command(body: Doc) returns (answer: Option<Doc>)
      modifies this
      ensures sent == old(sent) + [body]
      ensures answer == if old(answers) == [] then None else old(answers)[0]
      ensures answers == if old(answers) == [] then [] else old(answers)[1..]
    {
      sent := sent + [body];
      if answers == [] {
        return None;
      }
      answer, answers := answers[0], answers[1..];
    }
  }
}
