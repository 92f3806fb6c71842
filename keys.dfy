/**
  The templated keys of QueryBuilder. Each key constant is `MessageFormat`
  pattern text; its `_PATTERN` constant is the parsed form, and each `...Key`
  function is `MessageFormat.format(constant, indices...)`, whose contract
  spells out the key it produces.
*/
module Keys {
  import opened Optional
  import opened Decimal
  import opened KeyTemplate

  const PR_N_ID := "pr{0}id"
  const PR_X_CD_Y := "pr{0}cd{1}"
  const IL_X_PI_Y_CD_Z := "il{0}pi{1}cd{2}"
  const IL_X_PI_Y_CM := "il{0}pi{1}cm{2}"
  const PROMO_N_ID := "promo{0}id"
  const CDX := "cd{0}"
  const CMX := "cm{0}"


  const PR_N_ID_PATTERN: Pattern := Field("pr", 0) + Word("id")
  const PR_X_CD_Y_PATTERN: Pattern := Field("pr", 0) + Field("cd", 1)
  const IL_X_PI_Y_CD_Z_PATTERN: Pattern := Field("il", 0) + Field("pi", 1) + Field("cd", 2)
  const IL_X_PI_Y_CM_PATTERN: Pattern := Field("il", 0) + Field("pi", 1) + Field("cm", 2)
  const PROMO_N_ID_PATTERN: Pattern := Field("promo", 0) + Word("id")
  const CDX_PATTERN: Pattern := Field("cd", 0)
  const CMX_PATTERN: Pattern := Field("cm", 0)

  lemma PrNIdParses()
    ensures Parse(PR_N_ID) == Some(PR_N_ID_PATTERN)
  {
    FieldText("pr", 0);
    WordText("id");
    ParseOfTwo(Field("pr", 0), Word("id"), PR_N_ID);
  }

  lemma PrXCdYParses()
    ensures Parse(PR_X_CD_Y) == Some(PR_X_CD_Y_PATTERN)
  {
    FieldText("pr", 0);
    FieldText("cd", 1);
    ParseOfTwo(Field("pr", 0), Field("cd", 1), PR_X_CD_Y);
  }

  lemma IlXPiYCdZParses()
    ensures Parse(IL_X_PI_Y_CD_Z) == Some(IL_X_PI_Y_CD_Z_PATTERN)
  {
    FieldText("il", 0);
    FieldText("pi", 1);
    FieldText("cd", 2);
    ParseOfThree(Field("il", 0), Field("pi", 1), Field("cd", 2), IL_X_PI_Y_CD_Z);
  }

  lemma IlXPiYCmParses()
    ensures Parse(IL_X_PI_Y_CM) == Some(IL_X_PI_Y_CM_PATTERN)
  {
    FieldText("il", 0);
    FieldText("pi", 1);
    FieldText("cm", 2);
    ParseOfThree(Field("il", 0), Field("pi", 1), Field("cm", 2), IL_X_PI_Y_CM);
  }

  lemma PromoNIdParses()
    ensures Parse(PROMO_N_ID) == Some(PROMO_N_ID_PATTERN)
  {
    FieldText("promo", 0);
    WordText("id");
    ParseOfTwo(Field("promo", 0), Word("id"), PROMO_N_ID);
  }

  lemma CdXParses()
    ensures Parse(CDX) == Some(CDX_PATTERN)
  {
    FieldText("cd", 0);
    ParseText(CDX_PATTERN);
  }

  lemma CmXParses()
    ensures Parse(CMX) == Some(CMX_PATTERN)
  {
    FieldText("cm", 0);
    ParseText(CMX_PATTERN);
  }

  /** `MessageFormat.format(PR_N_ID, n)`: the product SKU key. */
  function PrNIdKey(n: nat): (key: string)
    ensures key == "pr" + GroupedDecimal(n) + "id"
    ensures n < 1000 ==> key == "pr" + NatToString(n) + "id"
  {
    PrNIdParses();
    FieldFormat("pr", 0, [n]);
    WordFormat("id", [n]);
    FormatAppend(Field("pr", 0), Word("id"), [n]);
    GroupedBelowThousand(n);
    FormatPattern(PR_N_ID, [n])
  }

  /** `MessageFormat.format(PR_X_CD_Y, x, y)`: the product custom dimension key. */
  function PrXCdYKey(x: nat, y: nat): (key: string)
    ensures key == "pr" + GroupedDecimal(x) + "cd" + GroupedDecimal(y)
    ensures x < 1000 && y < 1000 ==> key == "pr" + NatToString(x) + "cd" + NatToString(y)
  {
    PrXCdYParses();
    FormatTwoFields("pr", 0, "cd", 1, [x, y]);
    GroupedBelowThousand(x);
    GroupedBelowThousand(y);
    FormatPattern(PR_X_CD_Y, [x, y])
  }

  /** `MessageFormat.format(IL_X_PI_Y_CD_Z, x, y, z)`: the impression-list product dimension key. */
  function IlXPiYCdZKey(x: nat, y: nat, z: nat): (key: string)
    ensures key == "il" + GroupedDecimal(x) + "pi" + GroupedDecimal(y) + "cd" + GroupedDecimal(z)
    ensures x < 1000 && y < 1000 && z < 1000 ==>
      key == "il" + NatToString(x) + "pi" + NatToString(y) + "cd" + NatToString(z)
  {
    IlXPiYCdZParses();
    FormatThreeFields("il", 0, "pi", 1, "cd", 2, [x, y, z]);
    GroupedBelowThousand(x);
    GroupedBelowThousand(y);
    GroupedBelowThousand(z);
    FormatPattern(IL_X_PI_Y_CD_Z, [x, y, z])
  }

  /** `MessageFormat.format(IL_X_PI_Y_CM, x, y, z)`: the impression-list product metric key. */
  function IlXPiYCmZKey(x: nat, y: nat, z: nat): (key: string)
    ensures key == "il" + GroupedDecimal(x) + "pi" + GroupedDecimal(y) + "cm" + GroupedDecimal(z)
    ensures x < 1000 && y < 1000 && z < 1000 ==>
      key == "il" + NatToString(x) + "pi" + NatToString(y) + "cm" + NatToString(z)
  {
    IlXPiYCmParses();
    FormatThreeFields("il", 0, "pi", 1, "cm", 2, [x, y, z]);
    GroupedBelowThousand(x);
    GroupedBelowThousand(y);
    GroupedBelowThousand(z);
    FormatPattern(IL_X_PI_Y_CM, [x, y, z])
  }

  /** `MessageFormat.format(PROMO_N_ID, n)`: the promotion ID key. */
  function PromoNIdKey(n: nat): (key: string)
    ensures key == "promo" + GroupedDecimal(n) + "id"
    ensures n < 1000 ==> key == "promo" + NatToString(n) + "id"
  {
    PromoNIdParses();
    FieldFormat("promo", 0, [n]);
    WordFormat("id", [n]);
    FormatAppend(Field("promo", 0), Word("id"), [n]);
    GroupedBelowThousand(n);
    FormatPattern(PROMO_N_ID, [n])
  }

  /** `MessageFormat.format(CDX, n)`: the custom dimension key. */
  function CdXKey(n: nat): (key: string)
    ensures key == "cd" + GroupedDecimal(n)
    ensures n < 1000 ==> key == "cd" + NatToString(n)
  {
    CdXParses();
    FieldFormat("cd", 0, [n]);
    GroupedBelowThousand(n);
    FormatPattern(CDX, [n])
  }

  /** `MessageFormat.format(CMX, n)`: the custom metric key. */
  function CmXKey(n: nat): (key: string)
    ensures key == "cm" + GroupedDecimal(n)
    ensures n < 1000 ==> key == "cm" + NatToString(n)
  {
    CmXParses();
    FieldFormat("cm", 0, [n]);
    GroupedBelowThousand(n);
    FormatPattern(CMX, [n])
  }

  /** The placeholders of the impression-list dimension key show x, y, z in that order, each followed by a letter. */
  lemma IlXPiYCdZShown(x: nat, y: nat, z: nat)
    ensures Covers(IL_X_PI_Y_CD_Z_PATTERN, 3) && Separated(IL_X_PI_Y_CD_Z_PATTERN)
    ensures Shown(IL_X_PI_Y_CD_Z_PATTERN, [x, y, z]) == [x, y, z]
  {
    var args := [x, y, z];
    FieldShown("il", 0, args);
    FieldShown("pi", 1, args);
    FieldShown("cd", 2, args);
    ShownAppend3(Field("il", 0), Field("pi", 1), Field("cd", 2), args);
    FieldSeparated("il", 0);
    FieldSeparated("pi", 1);
    FieldSeparated("cd", 2);
    FieldStartsWithLetter("pi", 1);
    FieldStartsWithLetter("cd", 2);
    SeparatedAppend(Field("il", 0), Field("pi", 1));
    SeparatedAppend(Field("il", 0) + Field("pi", 1), Field("cd", 2));
  }

  /** Distinct index triples never produce the same impression-list dimension key. */
  lemma IlXPiYCdZKeyInjective(x1: nat, y1: nat, z1: nat, x2: nat, y2: nat, z2: nat)
    requires x1 < 1000 && y1 < 1000 && z1 < 1000 && x2 < 1000 && y2 < 1000 && z2 < 1000
    ensures IlXPiYCdZKey(x1, y1, z1) == IlXPiYCdZKey(x2, y2, z2) ==> x1 == x2 && y1 == y2 && z1 == z2
  {
    IlXPiYCdZParses();
    IlXPiYCdZShown(x1, y1, z1);
    IlXPiYCdZShown(x2, y2, z2);
    FormatInjective(IL_X_PI_Y_CD_Z_PATTERN, [x1, y1, z1], [x2, y2, z2]);
  }

  lemma PrXCdYShown(x: nat, y: nat)
    ensures Covers(PR_X_CD_Y_PATTERN, 2) && Separated(PR_X_CD_Y_PATTERN)
    ensures Shown(PR_X_CD_Y_PATTERN, [x, y]) == [x, y]
  {
    FieldShown("pr", 0, [x, y]);
    FieldShown("cd", 1, [x, y]);
    ShownAppend(Field("pr", 0), Field("cd", 1), [x, y]);
    FieldSeparated("pr", 0);
    FieldSeparated("cd", 1);
    FieldStartsWithLetter("cd", 1);
    SeparatedAppend(Field("pr", 0), Field("cd", 1));
  }

  /** Distinct index pairs never produce the same product dimension key. */
  lemma PrXCdYKeyInjective(x1: nat, y1: nat, x2: nat, y2: nat)
    requires x1 < 1000 && y1 < 1000 && x2 < 1000 && y2 < 1000
    ensures PrXCdYKey(x1, y1) == PrXCdYKey(x2, y2) ==> x1 == x2 && y1 == y2
  {
    PrXCdYParses();
    PrXCdYShown(x1, y1);
    PrXCdYShown(x2, y2);
    FormatInjective(PR_X_CD_Y_PATTERN, [x1, y1], [x2, y2]);
  }
}
