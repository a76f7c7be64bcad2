/** The default zero-shot templates, with the literal text between their fields. */
module ZeroShotDefaults {
  import opened PromptTemplates

  // The literal text between the fields of the default templates, cut into
  // short pieces (the cut changes nothing: each constant is one string).
  const ClassifyLead: string := "Classify " + "the " + "following " + "text into "
  const ClassifyAfterType: string := ".\n\n" + "Text: "
  const ClassifyAfterText: string := "\n\n" + "Possible " + "labels: "
  const ClassifyRule: string := "The " + "classification " + "should be " + "exactly one " + "of the " + "provided " + "labels. "
  const ClassifyReply: string := "Respond " + "with only " + "the label " + "and nothing " + "else."
  const ClassifyTail: string := "\n\n" + ClassifyRule + ClassifyReply
  const QuestionLead: string := "Answer " + "the " + "following " + "question " + "based on " + "the " + "provided " + "context." + "\n\n" + "Context: "
  const QuestionAfterContext: string := "\n\n" + "Question: "
  const QuestionTail: string := "\n\n" + "Answer:"
  const ExtractLead: string := "Extract " + "the " + "following " + "information " + "from the " + "text " + "below." + "\n\n" + "Text: "
  const ExtractAfterText: string := "\n\n" + "Information " + "to extract:" + "\n"
  const ExtractAfterSchema: string := "\n\n" + "Provide " + "the " + "extracted " + "information " + "in "
  const ExtractTail: string := " format."

  const DefaultClassificationTemplate: string :=
    ClassifyLead + Placeholder("label_type")
    + (ClassifyAfterType + Placeholder("text") + (ClassifyAfterText + Placeholder("labels") + ClassifyTail))

  const DefaultQuestionAnsweringTemplate: string :=
    QuestionLead + Placeholder("context") + (QuestionAfterContext + Placeholder("question") + QuestionTail)

  const DefaultExtractionTemplate: string :=
    ExtractLead + Placeholder("text")
    + (ExtractAfterText + Placeholder("schema_desc") + (ExtractAfterSchema + Placeholder("output_format") + ExtractTail))
}
