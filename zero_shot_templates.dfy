/** How each default zero-shot template formats once its fields are given values. */
module ZeroShotTemplates {
  import opened Wrappers
  import opened Text
  import opened PromptTemplates
  import opened ZeroShotDefaults

  // ---------------------------------------------------------------------------
  // Default templates
  // ---------------------------------------------------------------------------

  // Each literal part of the default templates is brace-free (the longer parts one brace at a time).

  lemma ClassifyLeadPlain() ensures Plain(ClassifyLead) {}
  lemma ClassifyAfterTypePlain() ensures Plain(ClassifyAfterType) {}
  lemma ClassifyAfterTextPlain() ensures Plain(ClassifyAfterText) {}
  lemma QuestionAfterContextPlain() ensures Plain(QuestionAfterContext) {}
  lemma QuestionTailPlain() ensures Plain(QuestionTail) {}
  lemma ExtractAfterTextPlain() ensures Plain(ExtractAfterText) {}
  lemma ExtractTailPlain() ensures Plain(ExtractTail) {}

  lemma ClassifyRuleNoOpen() ensures '{' !in ClassifyRule {}
  lemma ClassifyRuleNoClose() ensures '}' !in ClassifyRule {}
  lemma ClassifyReplyNoOpen() ensures '{' !in ClassifyReply {}
  lemma ClassifyReplyNoClose() ensures '}' !in ClassifyReply {}
  lemma QuestionLeadNoOpen() ensures '{' !in QuestionLead {}
  lemma QuestionLeadNoClose() ensures '}' !in QuestionLead {}
  lemma ExtractLeadNoOpen() ensures '{' !in ExtractLead {}
  lemma ExtractLeadNoClose() ensures '}' !in ExtractLead {}
  lemma ExtractAfterSchemaNoOpen() ensures '{' !in ExtractAfterSchema {}
  lemma ExtractAfterSchemaNoClose() ensures '}' !in ExtractAfterSchema {}

  lemma ClassifyRulePlain() ensures Plain(ClassifyRule) {
    ClassifyRuleNoOpen();
    ClassifyRuleNoClose();
  }

  lemma ClassifyReplyPlain() ensures Plain(ClassifyReply) {
    ClassifyReplyNoOpen();
    ClassifyReplyNoClose();
  }

  lemma QuestionLeadPlain() ensures Plain(QuestionLead) {
    QuestionLeadNoOpen();
    QuestionLeadNoClose();
  }

  lemma ExtractLeadPlain() ensures Plain(ExtractLead) {
    ExtractLeadNoOpen();
    ExtractLeadNoClose();
  }

  lemma ExtractAfterSchemaPlain() ensures Plain(ExtractAfterSchema) {
    ExtractAfterSchemaNoOpen();
    ExtractAfterSchemaNoClose();
  }

  lemma ClassifyTailPlain() ensures Plain(ClassifyTail) {
    ClassifyRulePlain();
    ClassifyReplyPlain();
  }

  /** A name that starts with a letter is looked up by keyword. */
  lemma KeywordName(name: string)
    requires name != [] && 'a' <= name[0] <= 'z' && Plain(name)
    ensures Plain(name) && !IsPositional(name)
  {
    assert !IsDigit(name[0]);
  }

  /** The default classification template fills `label_type`, `text` and `labels` in that order, and nothing else. */
  lemma ClassificationTemplateFills(values: map<string, string>)
    requires "label_type" in values && "text" in values && "labels" in values
    ensures Format(DefaultClassificationTemplate, values)
            == Ok(ClassifyLead + values["label_type"] + ClassifyAfterType + values["text"]
                  + ClassifyAfterText + values["labels"] + ClassifyTail)
  {
    ClassifyLeadPlain();
    ClassifyAfterTypePlain();
    ClassifyAfterTextPlain();
    ClassifyTailPlain();
    KeywordName("label_type");
    KeywordName("text");
    KeywordName("labels");
    FormatThreeFields(ClassifyLead, "label_type", ClassifyAfterType, "text", ClassifyAfterText, "labels", ClassifyTail, values);
  }

  /** The default question-answering template fills `context` then `question`. */
  lemma QuestionTemplateFills(values: map<string, string>)
    requires "context" in values && "question" in values
    ensures Format(DefaultQuestionAnsweringTemplate, values)
            == Ok(QuestionLead + values["context"] + QuestionAfterContext + values["question"] + QuestionTail)
  {
    QuestionLeadPlain();
    QuestionAfterContextPlain();
    QuestionTailPlain();
    KeywordName("context");
    KeywordName("question");
    FormatTwoFields(QuestionLead, "context", QuestionAfterContext, "question", QuestionTail, values);
  }

  /** The default extraction template fills `text`, `schema_desc` and `output_format` in that order. */
  lemma ExtractionTemplateFills(values: map<string, string>)
    requires "text" in values && "schema_desc" in values && "output_format" in values
    ensures Format(DefaultExtractionTemplate, values)
            == Ok(ExtractLead + values["text"] + ExtractAfterText + values["schema_desc"]
                  + ExtractAfterSchema + values["output_format"] + ExtractTail)
  {
    ExtractLeadPlain();
    ExtractAfterTextPlain();
    ExtractAfterSchemaPlain();
    ExtractTailPlain();
    KeywordName("text");
    KeywordName("schema_desc");
    KeywordName("output_format");
    FormatThreeFields(ExtractLead, "text", ExtractAfterText, "schema_desc", ExtractAfterSchema, "output_format", ExtractTail, values);
  }
}
