/** The part of the formatter's configuration record that this model covers. */
module Options {

  /** How registered words are re-cased (keyword_case, name_case). */
  datatype CaseMode = Preserve | Lowercase | Uppercase

  /** keyword_case, name_case and indentation; the other switches of the
      configuration record are not part of this model. */
  datatype Config = Config(keywordCase: CaseMode, nameCase: CaseMode, indentation: string)
}
