/** The `Span` node of the PPL query AST: a time-bucketing group-by expression such as
    `span(timestamp, 1h) as hourly`. A Span owns an inner expression node and an optional
    custom label (alias). It extracts itself into a token record for the configuration UI
    and writes itself back as query text. */
module PplSpan {
  import opened JsValues

  /** The token values a node extracts: JavaScript `undefined`, a string, or a record
      keyed by field name. */
  datatype Value = Undefined | Str(s: string) | Record(entries: map<string, Value>)

  /** An AST node whose class is not part of this model (the `PPLNode` base class and its
      other subclasses). It carries its name and children and the results of its own
      `getTokens()` and `toString()`. */
  datatype Node = Node(name: string, children: seq<Node>, tokens: Value, text: string)

  /** A Span: the base-class `name` and `children`, the inner span expression and the
      custom label, where `None` is an absent (`undefined`) label. */
  datatype Span = Span(name: string, children: seq<Node>, spanExpression: Node, customLabel: Option<string>)

  /** Key of the inner expression's tokens. */
  const SpanExpressionKey: string := "span_expression"

  /** Key of the custom label. The source reads both the token key and the label itself
      through one shared constant (`this[CUSTOM_LABEL]`), which reaches the constructor
      field only if the constant names that field; the model assumes it does. */
  const CustomLabelKey: string := "customLabel"

  /** The text placed between the inner expression and the alias. */
  const AliasSeparator: string := " as "

  /** JavaScript truthiness of the label: `undefined` and `""` are both falsy. */
  predicate HasAlias(customLabel: Option<string>)
  {
    customLabel.Some? && customLabel.value != ""
  }

  /** The label as the token value it becomes: verbatim, `undefined` when absent. */
  function LabelValue(customLabel: Option<string>): (v: Value)
    ensures v.Undefined? <==> customLabel.None?
    ensures forall l :: customLabel == Some(l) ==> v == Str(l)
  {
    match customLabel
    case None => Undefined
    case Some(l) => Str(l)
  }

  /** `getTokens()`: a two-entry record holding the inner expression's own tokens and the
      label, which is present even when it is absent or empty. */
  function GetTokens(s: Span): (r: Value)
    ensures r.Record?
    ensures r.entries.Keys == {SpanExpressionKey, CustomLabelKey} && |r.entries| == 2
    ensures r.entries[SpanExpressionKey] == s.spanExpression.tokens
    ensures r.entries[CustomLabelKey] == LabelValue(s.customLabel)
  {
    Record(map[SpanExpressionKey := s.spanExpression.tokens, CustomLabelKey := LabelValue(s.customLabel)])
  }

  /** `toString()`: the inner expression's text, followed by ` as <label>` only when the
      label is truthy. */
  function ToString(s: Span): (r: string)
    ensures s.spanExpression.text <= r
    ensures |r| == |s.spanExpression.text| + (if HasAlias(s.customLabel) then |AliasSeparator| + |s.customLabel.value| else 0)
    ensures r == s.spanExpression.text <==> !HasAlias(s.customLabel)
  {
    s.spanExpression.text + (if HasAlias(s.customLabel) then AliasSeparator + s.customLabel.value else "")
  }

  /** Reads an alias back from a span's text, given the text of its inner expression:
      the independent inverse of the suffix that `ToString` appends. */
  function AliasOf(text: string, innerText: string): (a: Option<string>)
    ensures a.Some? ==> a.value != "" && text == innerText + AliasSeparator + a.value
    ensures a.None? ==> forall l :: l != "" ==> text != innerText + AliasSeparator + l
  {
    var n := |innerText|;
    if innerText <= text && |text| > n + |AliasSeparator| && text[n..n + |AliasSeparator|] == AliasSeparator
    then
      assert text == text[..n] + text[n..n + |AliasSeparator|] + text[n + |AliasSeparator|..];
      Some(text[n + |AliasSeparator|..])
    else
      None
  }

  /** The alias a span shows in its text: the label when truthy, otherwise none. */
  function ShownAlias(customLabel: Option<string>): (a: Option<string>)
    ensures a.Some? <==> HasAlias(customLabel)
    ensures a.Some? ==> a == customLabel
  {
    if HasAlias(customLabel) then customLabel else None
  }

  /** Round trip: the alias can be recovered from the text `ToString` writes. */
  lemma AliasRoundTrip(s: Span)
    ensures AliasOf(ToString(s), s.spanExpression.text) == ShownAlias(s.customLabel)
  {
    var inner := s.spanExpression.text;
    var r := ToString(s);
    if HasAlias(s.customLabel) {
      var l := s.customLabel.value;
      assert r == inner + AliasSeparator + l;
      assert r[|inner|..|inner| + |AliasSeparator|] == AliasSeparator;
      assert r[|inner| + |AliasSeparator|..] == l;
    } else {
      assert r == inner;
    }
  }

  /** An empty label and an absent label write the same text: the inner expression's,
      with no ` as` suffix. */
  lemma EmptyAndAbsentLabelsAgree(name: string, children: seq<Node>, e: Node)
    ensures ToString(Span(name, children, e, Some(""))) == ToString(Span(name, children, e, None)) == e.text
  {
  }

  /** With a non-empty label the text is the inner text followed by ` as <label>`. */
  lemma ToStringWithAlias(s: Span, l: string)
    requires s.customLabel == Some(l) && l != ""
    ensures ToString(s) == s.spanExpression.text + " as " + l
  {
  }

  /** Spans over the same inner expression write the same text exactly when they show
      the same alias. */
  lemma ToStringDeterminesAlias(s1: Span, s2: Span)
    requires s1.spanExpression.text == s2.spanExpression.text
    ensures ToString(s1) == ToString(s2) <==> ShownAlias(s1.customLabel) == ShownAlias(s2.customLabel)
  {
    AliasRoundTrip(s1);
    AliasRoundTrip(s2);
  }

  /** Reads the label back out of a token record. */
  function LabelFromTokens(t: Value): (l: Option<string>)
    requires t.Record? && CustomLabelKey in t.entries
    requires t.entries[CustomLabelKey].Undefined? || t.entries[CustomLabelKey].Str?
    ensures l.None? <==> t.entries[CustomLabelKey].Undefined?
    ensures forall v :: t.entries[CustomLabelKey] == Str(v) ==> l == Some(v)
  {
    match t.entries[CustomLabelKey]
    case Str(v) => Some(v)
    case Undefined => None
  }

  /** Round trip: the tokens give back the inner expression's tokens and the label,
      unchanged (not trimmed, an empty label kept distinct from an absent one). */
  lemma TokensRoundTrip(s: Span)
    ensures GetTokens(s).entries[SpanExpressionKey] == s.spanExpression.tokens
    ensures LabelFromTokens(GetTokens(s)) == s.customLabel
  {
  }

  /** Two spans extract equal tokens exactly when their inner expressions' tokens and
      their labels are equal; name and children play no part. */
  lemma TokensDetermineContent(s1: Span, s2: Span)
    ensures GetTokens(s1) == GetTokens(s2) <==>
      s1.spanExpression.tokens == s2.spanExpression.tokens && s1.customLabel == s2.customLabel
  {
    if GetTokens(s1) == GetTokens(s2) {
      TokensRoundTrip(s1);
      TokensRoundTrip(s2);
    }
  }

  /** Neither operation reads the node's own name or children. */
  lemma IndependentOfNameAndChildren(s1: Span, s2: Span)
    requires s1.spanExpression == s2.spanExpression && s1.customLabel == s2.customLabel
    ensures GetTokens(s1) == GetTokens(s2) && ToString(s1) == ToString(s2)
  {
  }
}
