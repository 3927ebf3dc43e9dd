/** The search form (SearchBar.jsx). */
module SearchBar {
  /** The characters `String.prototype.trim` removes: ECMAScript's WhiteSpace
      (tab, vertical tab, form feed, space, no-break space, byte order mark and
      the other space separators) and LineTerminator characters. */
  predicate IsJsWhitespace(c: char)
  {
    c == '\U{0009}' || c == '\U{000B}' || c == '\U{000C}' || c == '\U{0020}' ||
    c == '\U{00A0}' || c == '\U{FEFF}' || c == '\U{1680}' ||
    ('\U{2000}' <= c <= '\U{200A}') || c == '\U{202F}' || c == '\U{205F}' || c == '\U{3000}' ||
    c == '\U{000A}' || c == '\U{000D}' || c == '\U{2028}' || c == '\U{2029}'
  }

  /** Drops leading white space. */
  function TrimStart(s: string): (t: string)
    ensures |t| <= |s| && t == s[|s| - |t|..]
    ensures t != [] ==> !IsJsWhitespace(t[0])
    ensures forall i :: 0 <= i < |s| - |t| ==> IsJsWhitespace(s[i])
  {
    if s != [] && IsJsWhitespace(s[0]) then TrimStart(s[1..]) else s
  }

  /** Drops trailing white space. */
  function TrimEnd(s: string): (t: string)
    ensures |t| <= |s| && t == s[..|t|]
    ensures t != [] ==> !IsJsWhitespace(t[|t| - 1])
    ensures forall i :: |t| <= i < |s| ==> IsJsWhitespace(s[i])
  {
    if s != [] && IsJsWhitespace(s[|s| - 1]) then TrimEnd(s[..|s| - 1]) else s
  }

  /** `s.trim()`: `s` with the white space at both ends removed, and only that.
      The result is the piece of `s` starting after the leading white space,
      every character of `s` outside it is white space, and it neither starts
      nor ends with white space. */
  function Trim(s: string): (t: string)
    ensures var k := |s| - |TrimStart(s)|; k + |t| <= |s| && t == s[k..k + |t|]
    ensures forall i :: 0 <= i < |s| && !(|s| - |TrimStart(s)| <= i < |s| - |TrimStart(s)| + |t|) ==>
      IsJsWhitespace(s[i])
    ensures t != [] ==> !IsJsWhitespace(t[0]) && !IsJsWhitespace(t[|t| - 1])
  {
    var rest := TrimStart(s);
    var t := TrimEnd(rest);
    assert t != [] ==> t[0] == rest[0];
    t
  }

  /** `s.trim()` is empty (falsy) exactly when every character of `s` is white
      space. */
  lemma TrimEmptyIff(s: string)
    ensures Trim(s) == [] <==> forall i :: 0 <= i < |s| ==> IsJsWhitespace(s[i])
  {
    var rest := TrimStart(s);
    var k, t := |s| - |rest|, TrimEnd(rest);
    if t == [] {
      // a non-empty `rest` starts with a character `TrimEnd` would keep
      assert rest == [];
    } else {
      assert s[k] == t[0];
    }
  }

  /** `handleSubmit`'s decision: the `onSearch` calls it makes for a term. It
      calls `onSearch` once, with the term as typed (not trimmed), when the term
      has a character that is not white space, and never otherwise. */
  function SearchCalls(searchTerm: string): (calls: seq<string>)
    ensures (exists i :: 0 <= i < |searchTerm| && !IsJsWhitespace(searchTerm[i])) ==> calls == [searchTerm]
    ensures (forall i :: 0 <= i < |searchTerm| ==> IsJsWhitespace(searchTerm[i])) ==> calls == []
  {
    TrimEmptyIff(searchTerm);
    if Trim(searchTerm) != [] then [searchTerm] else []
  }

  /** What the form shows. */
  datatype Controls = Controls(inputValue: string, inputDisabled: bool, buttonDisabled: bool, spinner: bool)

  /** The component's state: the text in the box. */
  class SearchForm {
    var searchTerm: string

    constructor ()
      ensures searchTerm == ""
    {
      searchTerm := "";
    }

    /** `onChange`: the box always holds the latest input. */
    method HandleChange(value: string)
      modifies this
      ensures searchTerm == value
    {
      searchTerm := value;
    }

    /** `handleSubmit`: the browser's default submission is always prevented;
        `onSearch` receives the calls `SearchCalls` decides. The state does not
        change. */
    method HandleSubmit() returns (defaultPrevented: bool, onSearch: seq<string>)
      ensures defaultPrevented
      ensures onSearch == SearchCalls(searchTerm)
      ensures |onSearch| <= 1
    {
      defaultPrevented := true;
      onSearch := [];
      if Trim(searchTerm) != [] {
        onSearch := onSearch + [searchTerm];
      }
    }

    /** The rendered form: the input shows `searchTerm`, and the input and the
        button are both disabled, and the spinner shown, exactly while `loading`. */
    function Render(loading: bool): (c: Controls)
      reads this
      ensures c.inputValue == searchTerm
      ensures c.inputDisabled <==> loading
      ensures c.buttonDisabled <==> loading
      ensures c.spinner <==> loading
    {
      Controls(searchTerm, loading, loading, loading)
    }
  }
}
