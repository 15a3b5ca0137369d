/**
 * Normalisation of the categorical columns: an exact-match dictionary
 * replacement (`Series.replace(dict)`) followed by Python's `str.title()`.
 * Case mapping covers ASCII and the Latin-1 letters U+00C0..U+00FF.
 */
module Text {

  predicate IsUpper(c: char)
  {
    ('A' <= c <= 'Z') || ('À' <= c <= 'Þ' && c != '×')
  }

  predicate IsLower(c: char)
  {
    ('a' <= c <= 'z') || ('ß' <= c <= 'ÿ' && c != '÷')
  }

  /** A letter that has case; `str.title()` starts a new word after any other character. */
  predicate IsCased(c: char)
  {
    IsUpper(c) || IsLower(c)
  }

  /** Upper case of a letter; `ß` and `ÿ` have no single-character upper case here. */
  function ToUpper(c: char): (u: char)
    ensures IsCased(u) == IsCased(c)
  {
    if ('a' <= c <= 'z') || ('à' <= c <= 'þ' && c != '÷') then
      (c as int - 32) as char
    else
      c
  }

  function ToLower(c: char): (l: char)
    ensures IsCased(l) == IsCased(c)
    ensures !IsUpper(l)
  {
    if IsUpper(c) then (c as int + 32) as char else c
  }

  /**
   * Python's `str.title()`: a cased character that follows a cased character
   * is lower-cased, every other character is upper-cased.
   */
  function Title(s: string): (t: string)
    ensures |t| == |s|
  {
    seq(|s|, i requires 0 <= i < |s| => if i > 0 && IsCased(s[i - 1]) then ToLower(s[i]) else ToUpper(s[i]))
  }

  /** Title-casing a title-cased string changes nothing. */
  lemma TitleIdempotent(s: string)
    ensures Title(Title(s)) == Title(s)
  {
    var t := Title(s);
    forall i | 0 <= i < |s|
      ensures Title(t)[i] == t[i]
    {
      if i > 0 {
        assert IsCased(t[i - 1]) == IsCased(s[i - 1]);
      }
    }
  }

  /**
   * A string that `str.title()` can never produce: it starts with an ASCII
   * lower-case letter, or a cased letter is followed by an upper-case one.
   */
  predicate NeverTitled(k: string)
  {
    (|k| > 0 && 'a' <= k[0] <= 'z')
    || (|k| > 1 && IsCased(k[0]) && IsUpper(k[1]))
  }

  lemma TitleIsNeverNeverTitled(s: string)
    ensures !NeverTitled(Title(s))
  {
    var t := Title(s);
    if |s| > 1 && IsCased(t[0]) {
      assert IsCased(s[0]);
      assert t[1] == ToLower(s[1]);
    }
  }

  /** `replace(mapping)` then `str.title()`. */
  function Normalize(mapping: map<string, string>, s: string): string
  {
    Title(if s in mapping then mapping[s] else s)
  }

  /** A dictionary none of whose keys can come out of `str.title()`. */
  predicate TitleFreeKeys(mapping: map<string, string>)
  {
    forall k :: k in mapping ==> NeverTitled(k)
  }

  /** Normalising twice is normalising once, for a dictionary with title-free keys. */
  lemma NormalizeIdempotent(mapping: map<string, string>, s: string)
    requires TitleFreeKeys(mapping)
    ensures Normalize(mapping, Normalize(mapping, s)) == Normalize(mapping, s)
  {
    var n := Normalize(mapping, s);
    TitleIsNeverNeverTitled(if s in mapping then mapping[s] else s);
    assert n !in mapping;
    TitleIdempotent(if s in mapping then mapping[s] else s);
  }

  /** The area dictionary of the cleaning stage. */
  const AREA_MAP: map<string, string> := map[
    "ventas" := "Ventas", "VENTAS" := "Ventas",
    "marketing" := "Marketing", "MARKETING" := "Marketing",
    "ti" := "Ti", "TI" := "Ti", "IT" := "Ti",
    "rrhh" := "Rrhh", "RRHH" := "Rrhh",
    "operaciones" := "Operaciones", "OPERACIONES" := "Operaciones"
  ]

  /** The closed set of areas an expense may carry after normalisation. */
  const VALID_AREAS: set<string> := {"Ventas", "Marketing", "Ti", "Rrhh", "Operaciones"}

  /** The budget-line dictionary of the cleaning stage. */
  const PARTIDA_MAP: map<string, string> := map[
    "salarios" := "Salarios", "SALARIOS" := "Salarios",
    "publicidad" := "Publicidad", "PUBLICIDAD" := "Publicidad"
  ]

  lemma AreaMapTitleFree()
    ensures TitleFreeKeys(AREA_MAP)
  {
    forall k | k in AREA_MAP
      ensures NeverTitled(k)
    {
      assert k in {"ventas", "VENTAS", "marketing", "MARKETING", "ti", "TI", "IT",
                   "rrhh", "RRHH", "operaciones", "OPERACIONES"};
    }
  }

  /** One ASCII capital followed by ASCII lower-case letters. */
  predicate Capitalized(s: string)
  {
    |s| > 0 && 'A' <= s[0] <= 'Z' && forall i :: 1 <= i < |s| ==> 'a' <= s[i] <= 'z'
  }

  /** A capitalised word is its own title case. */
  lemma CapitalizedTitle(s: string)
    requires Capitalized(s)
    ensures Title(s) == s
  {
    forall i | 0 <= i < |s|
      ensures Title(s)[i] == s[i]
    {
      if i > 0 {
        assert IsCased(s[i - 1]);
      }
    }
  }

  /** The canonical area names are their own title case. */
  lemma AreaTitles()
    ensures Title("Ventas") == "Ventas" && Title("Marketing") == "Marketing"
    ensures Title("Ti") == "Ti" && Title("Rrhh") == "Rrhh" && Title("Operaciones") == "Operaciones"
  {
    CapitalizedTitle("Ventas");
    CapitalizedTitle("Marketing");
    CapitalizedTitle("Ti");
    CapitalizedTitle("Rrhh");
    CapitalizedTitle("Operaciones");
  }

  /** The canonical budget-line names are their own title case. */
  lemma PartidaTitles()
    ensures Title("Salarios") == "Salarios" && Title("Publicidad") == "Publicidad"
  {
    CapitalizedTitle("Salarios");
    CapitalizedTitle("Publicidad");
  }

  /**
   * A key of the area dictionary normalises to its dictionary value
   * ("VENTAS" to "Ventas", "IT" to "Ti"), and that value is a canonical area.
   */
  lemma AreaMapEntry(k: string)
    requires k in AREA_MAP
    ensures Normalize(AREA_MAP, k) == AREA_MAP[k]
    ensures AREA_MAP[k] in VALID_AREAS
  {
    AreaLookups();
    assert k in {"ventas", "VENTAS", "marketing", "MARKETING", "ti", "TI", "IT",
                 "rrhh", "RRHH", "operaciones", "OPERACIONES"};
    AreaTitles();
  }

  lemma AreaLookups()
    ensures AREA_MAP["ventas"] == "Ventas" && AREA_MAP["VENTAS"] == "Ventas"
    ensures AREA_MAP["marketing"] == "Marketing" && AREA_MAP["MARKETING"] == "Marketing"
    ensures AREA_MAP["ti"] == "Ti" && AREA_MAP["TI"] == "Ti" && AREA_MAP["IT"] == "Ti"
    ensures AREA_MAP["rrhh"] == "Rrhh" && AREA_MAP["RRHH"] == "Rrhh"
    ensures AREA_MAP["operaciones"] == "Operaciones" && AREA_MAP["OPERACIONES"] == "Operaciones"
  {
  }

  /**
   * An area passes the closed-set check exactly when it is a dictionary key
   * or `str.title()` already makes it a canonical name.
   */
  lemma AreaAccepted(s: string)
    ensures Normalize(AREA_MAP, s) in VALID_AREAS <==> s in AREA_MAP || Title(s) in VALID_AREAS
  {
    if s in AREA_MAP {
      AreaMapEntry(s);
    }
  }

  /** Canonical areas are fixed points of area normalisation. */
  lemma CanonicalAreasFixed(a: string)
    requires a in VALID_AREAS
    ensures Normalize(AREA_MAP, a) == a
  {
    AreaTitles();
    assert Title(a) == a;
    TitleIsNeverNeverTitled(a);
    AreaMapTitleFree();
  }

  /** A key of the budget-line dictionary normalises to its dictionary value. */
  lemma PartidaMapEntry(k: string)
    requires k in PARTIDA_MAP
    ensures Normalize(PARTIDA_MAP, k) == PARTIDA_MAP[k]
  {
    assert k in {"salarios", "SALARIOS", "publicidad", "PUBLICIDAD"};
    assert PARTIDA_MAP["salarios"] == "Salarios" && PARTIDA_MAP["SALARIOS"] == "Salarios";
    assert PARTIDA_MAP["publicidad"] == "Publicidad" && PARTIDA_MAP["PUBLICIDAD"] == "Publicidad";
    PartidaTitles();
  }

  lemma PartidaMapTitleFree()
    ensures TitleFreeKeys(PARTIDA_MAP)
  {
    forall k | k in PARTIDA_MAP
      ensures NeverTitled(k)
    {
      assert k in {"salarios", "SALARIOS", "publicidad", "PUBLICIDAD"};
    }
  }
}
