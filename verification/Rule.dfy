/** The vocabulary of detection rules: who a rule is, and what it answers about one event. */
module Rule {
  import opened Base
  import opened Contract

  // One rule's answer about one event.
  datatype Outcome =
    | NoMatch
    | Match(severity: Severity, confidence: real, title: string, detail: string,
            eventIds: seq<string>, attrs: map<string, string>)

  datatype Evaluation = RuleError | Evaluated(outcome: Outcome)

  datatype RuleInfo = RuleInfo(id: string, version: string, name: string)
}
