/**
 * What every detector reports: a message and the AST node whose source
 * location the warning carries. Severity and the formatted location are not
 * part of this model.
 */
module Warnings {
  import opened Ast

  datatype Warning = Warning(message: string, at: NodeId)

  /** Appending to a report: warnings already reported stay in front. */
  lemma AppendToReport(base: seq<Warning>, prefix: seq<Warning>, more: seq<Warning>)
    ensures (base + prefix) + more == base + (prefix + more)
  {
  }
}
