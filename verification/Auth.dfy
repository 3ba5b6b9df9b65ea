/** Principals and their `type:id` text form. */
module Auth {
  import opened Prelude

  datatype Principal = Principal(kind: string, id: string)

  datatype ParseError = ExpectedTypeAndId | UnknownType(kind: string)

  const DOCUMENTED_KINDS: set<string> := {"user", "connector", "system"}

  /** The canonical text form, as in the X-Principal-Id header. */
  function Render(p: Principal): string {
    p.kind + ":" + p.id
  }

  /** The position of the first `c` in `s`, or |s|. */
  function IndexOf(s: string, c: char): (k: nat)
    ensures k <= |s|
    ensures k < |s| ==> s[k] == c
    ensures forall j :: 0 <= j < k ==> s[j] != c
  {
    if s == "" then 0 else if s[0] == c then 0 else 1 + IndexOf(s[1..], c)
  }

  /** Splits at the first colon; only the documented types are accepted. */
  function ParsePrincipal(s: string): Result<Principal, ParseError> {
    var k := IndexOf(s, ':');
    if k == |s| || k == 0 || k + 1 == |s| then
      Err(ExpectedTypeAndId)
    else if s[..k] !in DOCUMENTED_KINDS then
      Err(UnknownType(s[..k]))
    else
      Ok(Principal(s[..k], s[k + 1..]))
  }

  lemma {:induction false} DocumentedKindsHaveNoColon(kind: string)
    requires kind in DOCUMENTED_KINDS
    ensures kind != "" && ':' !in kind
  {
    assert kind == "user" || kind == "connector" || kind == "system";
  }

  lemma {:induction false} FirstColon(kind: string, rest: string)
    requires ':' !in kind
    ensures IndexOf(kind + ":" + rest, ':') == |kind|
  {
    var s := kind + ":" + rest;
    assert s[|kind|] == ':';
    assert forall j :: 0 <= j < |kind| ==> s[j] == kind[j];
  }

  /**
   * Rendering then parsing gives the principal back exactly when its type is a
   * documented one and its id is not empty; the id may contain colons.
   */
  lemma {:induction false} ParseUndoesRender(p: Principal)
    ensures ParsePrincipal(Render(p)) == Ok(p) <==> p.kind in DOCUMENTED_KINDS && p.id != ""
  {
    if p.kind in DOCUMENTED_KINDS {
      DocumentedKindsHaveNoColon(p.kind);
      FirstColon(p.kind, p.id);
      var s := Render(p);
      assert s[..|p.kind|] == p.kind;
      assert s[|p.kind| + 1..] == p.id;
    }
  }

  /** Parsing then rendering is the identity on every accepted text. */
  lemma {:induction false} RenderUndoesParse(s: string)
    requires ParsePrincipal(s).Ok?
    ensures Render(ParsePrincipal(s).value) == s
    ensures ParsePrincipal(s).value.kind in DOCUMENTED_KINDS && ParsePrincipal(s).value.id != ""
  {
    var k := IndexOf(s, ':');
    assert s == s[..k] + [s[k]] + s[k + 1..];
  }

  /** The accepted texts: user, connector or system, a colon, and a non-empty id. */
  lemma {:induction false} AcceptedTexts(s: string)
    ensures ParsePrincipal(s).Ok? <==>
            exists id: string :: id != "" && (s == "user:" + id || s == "connector:" + id || s == "system:" + id)
  {
    if ParsePrincipal(s).Ok? {
      RenderUndoesParse(s);
      var p := ParsePrincipal(s).value;
      KindTexts(p.kind, p.id);
    }
    forall id: string | id != "" && (s == "user:" + id || s == "connector:" + id || s == "system:" + id)
      ensures ParsePrincipal(s).Ok?
    {
      KindTexts("user", id);
      KindTexts("connector", id);
      KindTexts("system", id);
      ParseUndoesRender(Principal("user", id));
      ParseUndoesRender(Principal("connector", id));
      ParseUndoesRender(Principal("system", id));
    }
  }

  lemma {:induction false} KindTexts(kind: string, id: string)
    requires kind in DOCUMENTED_KINDS
    ensures Render(Principal(kind, id)) == "user:" + id || Render(Principal(kind, id)) == "connector:" + id
            || Render(Principal(kind, id)) == "system:" + id
    ensures kind == "user" ==> Render(Principal(kind, id)) == "user:" + id
    ensures kind == "connector" ==> Render(Principal(kind, id)) == "connector:" + id
    ensures kind == "system" ==> Render(Principal(kind, id)) == "system:" + id
  {
    assert "user" + ":" == "user:" && "connector" + ":" == "connector:" && "system" + ":" == "system:";
    assert kind == "user" || kind == "connector" || kind == "system";
  }

  /** What a refused text is told: its type is unknown when it has one and an id, else it has not the form type:id. */
  lemma {:induction false} RefusedTexts(s: string)
    requires ParsePrincipal(s).Err?
    ensures ParsePrincipal(s).error.UnknownType? <==>
            exists k :: 0 < k < |s| - 1 && s[k] == ':' && ':' !in s[..k]
    ensures ParsePrincipal(s).error.UnknownType? ==>
              ParsePrincipal(s).error.kind + ":" <= s && ':' !in ParsePrincipal(s).error.kind
  {
    var k := IndexOf(s, ':');
    forall j | k < j < |s|
      ensures ':' in s[..j]
    {
      assert s[..j][k] == ':';
    }
    if ParsePrincipal(s).error.UnknownType? {
      assert s[..k] + ":" == s[..k + 1];
    }
  }
}
