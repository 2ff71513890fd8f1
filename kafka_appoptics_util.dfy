/** KafkaAppopticsUtil: the prefix check and the flat registry-name rendering. */
module Util {
  import opened Wrappers
  import opened Metrics
  import opened Errors
  import opened JavaStrings
  import opened Client
  import opened Identity

  /** `checkPrefix`: only the empty string is refused; null and every non-empty prefix come
      back unchanged. */
  function CheckPrefix(prefix: Option<string>): (r: Result<Option<string>, Error>)
    ensures r.Failure? <==> prefix == Some("")
    ensures r.Success? ==> r.value == prefix
    ensures r.Failure? ==> r.error == EmptyPrefix && r.error.IsIllegalArgument()
  {
    if prefix == Some("") then Failure(EmptyPrefix) else Success(prefix)
  }

  /** `nameToString`: group, type and name joined by '.', then the scope when there is one.
      Nothing is sanitized. */
  function NameToString(m: MetricName): (r: string)
  {
    var tail := if m.scope.Some? then Dotted(m.name, m.scope.value) else m.name;
    Dotted(m.group, Dotted(m.typeName, tail))
  }

  /** Two parts joined by the separator. */
  function Dotted(head: string, rest: string): string
  {
    head + "." + rest
  }

  /** A dot-free head joined to the rest by a dot splits off as the first piece. */
  lemma DottedPieces(head: string, rest: string, restPieces: seq<string>)
    requires '.' !in head && Pieces(rest, '.') == restPieces
    ensures Pieces(Dotted(head, rest), '.') == [head] + restPieces
  {
    PiecesCons(head, '.', rest);
    assert head + "." + rest == head + ['.'] + rest;
  }

  /** The flat name splits back into its components when none of them contains a '.': the
      three parts without a scope, four with one. */
  lemma NameToStringPieces(m: MetricName)
    requires '.' !in m.group && '.' !in m.typeName && '.' !in m.name
    requires m.scope.Some? ==> '.' !in m.scope.value
    ensures m.scope.None? ==> Pieces(NameToString(m), '.') == [m.group, m.typeName, m.name]
    ensures m.scope.Some? ==> Pieces(NameToString(m), '.') == [m.group, m.typeName, m.name, m.scope.value]
  {
    var tail, tailPieces;
    if m.scope.Some? {
      PiecesWithoutSep(m.scope.value, '.');
      DottedPieces(m.name, m.scope.value, [m.scope.value]);
      tail, tailPieces := Dotted(m.name, m.scope.value), [m.name, m.scope.value];
    } else {
      PiecesWithoutSep(m.name, '.');
      tail, tailPieces := m.name, [m.name];
    }
    DottedPieces(m.typeName, tail, tailPieces);
    DottedPieces(m.group, Dotted(m.typeName, tail), [m.typeName] + tailPieces);
  }

  /** A scope adds a dot and the scope to the end of the scope-less flat name, and an
      identity's parsed name is the sanitized scope-less flat name. */
  lemma FlatNameLaws(m: MetricName, san: Sanitizers)
    ensures m.scope.Some? ==>
      NameToString(m) == NameToString(MetricName(m.group, m.typeName, m.name, None)) + "." + m.scope.value
    ensures ParseName(m, san) == san.metricName(NameToString(MetricName(m.group, m.typeName, m.name, None)))
  {
    assert m.group + "." + m.typeName + "." + m.name == Dotted(m.group, Dotted(m.typeName, m.name));
    if m.scope.Some? {
      assert Dotted(m.group, Dotted(m.typeName, Dotted(m.name, m.scope.value))) ==
             Dotted(m.group, Dotted(m.typeName, m.name)) + "." + m.scope.value;
    }
  }
}
