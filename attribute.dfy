/**
  The `AutoSignal` marker and its constructor's validation. The marker is an
  immutable value: its four properties are set once and have no setters.
*/
module Attributes {
  import opened Wrappers
  import opened Models

  datatype AutoSignalAttribute = AutoSignalAttribute(
    signalName: string,
    nodePath: string,
    connectionType: ConnectionType,
    dynamic: bool)

  /** The two exceptions the constructor throws. */
  datatype ArgumentError = ArgumentNull | ArgumentEmptyOrWhiteSpace

  /** .NET `char.IsWhiteSpace`: the Unicode space, line and paragraph separators, U+0009..U+000D and U+0085. */
  predicate IsWhiteSpace(c: char)
  {
    || ('\U{9}' <= c <= '\U{D}')
    || c == '\U{20}' || c == '\U{85}' || c == '\U{A0}' || c == '\U{1680}'
    || ('\U{2000}' <= c <= '\U{200A}')
    || c == '\U{2028}' || c == '\U{2029}' || c == '\U{202F}' || c == '\U{205F}' || c == '\U{3000}'
  }

  /** `string.IsNullOrEmpty(s) || string.IsNullOrWhiteSpace(s)` for a non-null `s`. */
  predicate IsBlank(s: string)
  {
    forall i :: 0 <= i < |s| ==> IsWhiteSpace(s[i])
  }

  /**
    The constructor `AutoSignalAttribute(signalName, nodePath = "", connectionType = Normal,
    dynamic = false)`. A null argument is `None`.
  */
  function NewAutoSignalAttribute(
    signalName: Option<string>,
    nodePath: Option<string> := Some(""),
    connectionType: ConnectionType := Normal,
    dynamic: bool := false): (r: Result<AutoSignalAttribute, ArgumentError>)
    ensures r == Err(ArgumentNull) <==> signalName == None
    ensures r == Err(ArgumentEmptyOrWhiteSpace) <==> signalName.Some? && IsBlank(signalName.value)
    ensures r.Ok? ==> && r.value.signalName == signalName.value
                      && r.value.nodePath == (if nodePath == None then "" else nodePath.value)
                      && r.value.connectionType == connectionType
                      && r.value.dynamic == dynamic
  {
    match signalName
    case None => Err(ArgumentNull)
    case Some(name) =>
      if IsBlank(name) then Err(ArgumentEmptyOrWhiteSpace)
      else
        var path := match nodePath case None => "" case Some(p) => p;
        Ok(AutoSignalAttribute(name, path, connectionType, dynamic))
  }

  /** Every marker that construction accepts carries a signal name with a non-white-space character. */
  lemma AcceptedNameHasVisibleChar(signalName: Option<string>, nodePath: Option<string>,
                                   connectionType: ConnectionType, dynamic: bool)
    requires NewAutoSignalAttribute(signalName, nodePath, connectionType, dynamic).Ok?
    ensures var a := NewAutoSignalAttribute(signalName, nodePath, connectionType, dynamic).value;
            exists i :: 0 <= i < |a.signalName| && !IsWhiteSpace(a.signalName[i])
  {
    var a := NewAutoSignalAttribute(signalName, nodePath, connectionType, dynamic).value;
    assert !IsBlank(a.signalName);
  }

  /** With only a valid signal name given, the defaults are "", Normal and not dynamic. */
  lemma Defaults(name: string)
    requires !IsBlank(name)
    ensures NewAutoSignalAttribute(Some(name)) == Ok(AutoSignalAttribute(name, "", Normal, false))
    ensures NewAutoSignalAttribute(Some(name), None) == Ok(AutoSignalAttribute(name, "", Normal, false))
  {
  }

  /** The concrete names the attribute's unit tests use. */
  lemma NameExamples()
    ensures NewAutoSignalAttribute(Some("")) == Err(ArgumentEmptyOrWhiteSpace)
    ensures NewAutoSignalAttribute(Some("   ")) == Err(ArgumentEmptyOrWhiteSpace)
    ensures NewAutoSignalAttribute(Some("\t")) == Err(ArgumentEmptyOrWhiteSpace)
    ensures NewAutoSignalAttribute(Some("\n")) == Err(ArgumentEmptyOrWhiteSpace)
    ensures NewAutoSignalAttribute(Some("  \t  \n  ")) == Err(ArgumentEmptyOrWhiteSpace)
    ensures NewAutoSignalAttribute(Some("signal with spaces"))
         == Ok(AutoSignalAttribute("signal with spaces", "", Normal, false))
    ensures NewAutoSignalAttribute(Some("Pressed")) != NewAutoSignalAttribute(Some("pressed"))
    ensures NewAutoSignalAttribute(Some("测试信号")) == Ok(AutoSignalAttribute("测试信号", "", Normal, false))
    ensures NewAutoSignalAttribute(Some("test_signal"), Some("  UI/Button  "))
         == Ok(AutoSignalAttribute("test_signal", "  UI/Button  ", Normal, false))
  {
    assert !IsWhiteSpace("signal with spaces"[0]);
    assert !IsWhiteSpace("Pressed"[0]) && !IsWhiteSpace("pressed"[0]);
    assert !IsWhiteSpace("测试信号"[0]);
    assert !IsWhiteSpace("test_signal"[0]);
  }
}
