/**
 * The DDL script as a whole: the CREATE statements of every table followed by the
 * constraint statements of every table, written to a file named after the template.
 */
module DdlScript {
  import opened Wrappers
  import opened DdlText
  import opened DdlSchema
  import opened DdlCreate
  import opened DdlConstraints

  /** Everything the script writes, or the error that stops it. `fixed` selects the
      corrected external-table field list (see `DdlCreate.EtEntry`). */
  function ScriptText(fixed: bool, s: Schema): Result<string, DdlError> {
    Then(CreatesText(fixed, s), ConstraintsText(s))
  }

  /** The script's two table loops, one after the other. */
  method GenerateDdls(fixed: bool, s: Schema) returns (r: Result<string, DdlError>)
    ensures r.Ok? ==> CreatesText(fixed, s).Ok? && ConstraintsText(s).Ok? &&
                      r.value == CreatesText(fixed, s).value + ConstraintsText(s).value
    ensures r.Err? <==> CreatesText(fixed, s).Err? || ConstraintsText(s).Err?
    ensures r == ScriptText(fixed, s)
  {
    var creates := CreateAllDdl(fixed, s);
    if creates.Err? {
      return creates;
    }
    var constraints := ConstraintsDdl(s);
    if constraints.Err? {
      return constraints;
    }
    r := Ok(creates.value + constraints.value);
  }

  /** The output file: the template path up to its first dot, then ".sql". */
  function OutputFileName(template: string): (r: string)
    ensures |r| >= 4 && r[|r| - 4..] == ".sql"
  {
    Split(template, '.')[0] + ".sql"
  }

  /** A template path `stem.ext` with a dot-free stem writes `stem.sql`, whatever the
      extension (including further dots in it). */
  lemma OutputFileNameStem(stem: string, ext: string)
    requires '.' !in stem
    ensures OutputFileName(stem + "." + ext) == stem + ".sql"
  {
    var t := stem + "." + ext;
    assert t[|stem|] == '.';
    assert t[..|stem|] == stem;
    IndexOfAt(t, '.', |stem|);
  }
}
