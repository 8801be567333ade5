/** Descriptions and labels from the larger sample scripts, worked through the model. */
module DescriptionExamples {
  import opened Wrappers
  import opened Text
  import opened Annotations
  import opened QNames
  import opened Statements

  /** `inst_l.py` line 176 describes `get_pids` as `determine PIDs stored\nin trace logs`,
      with a literal backslash-n; the cleaned label has a space there instead. */
  lemma PidsDescriptionCleaned()
    ensures ReplaceEscapedNewlines("determine PIDs stored\\nin trace logs") == "determine PIDs stored in trace logs"
  {
    PidsParts();
    ReplaceAtFirstEscapedNewline("determine PIDs stored", "in trace logs");
    ReplaceEscapedNewlinesIdentity("in trace logs");
  }

  /** The description around its escaped newline, neither part holding a backslash. */
  lemma PidsParts()
    ensures "determine PIDs stored\\nin trace logs" == "determine PIDs stored" + "\\n" + "in trace logs"
    ensures "determine PIDs stored in trace logs" == "determine PIDs stored" + " " + "in trace logs"
    ensures !HasEscapedNewline("determine PIDs stored") && !HasEscapedNewline("in trace logs")
  {
    NoBackslash("determine PIDs stored");
    NoBackslash("in trace logs");
  }

  /** Two backslashes and an `n`: the second backslash and the `n` are the escaped newline,
      so one backslash and a space remain. */
  lemma DoubleBackslashBeforeN()
    ensures ReplaceEscapedNewlines("\\\\n") == "\\ "
  {
    ReplaceAtFirstEscapedNewline("\\", "");
    assert "\\" + "\\n" + "" == "\\\\n";
    assert "\\" + " " + "" == "\\ ";
  }

  lemma NoBackslash(s: string)
    requires '\\' !in s
    ensures !HasEscapedNewline(s)
  {
  }

  /** `inst_m.py` line 104, `@return out_file @uri file:{out}`, as a stream: a Return and
      the `@uri` naming it. */
  const SaveOutFile: seq<Annotation> := [
    Primary(0, 104, Return, RETURN, "@return", "out_file"),
    Qualification(1, 104, Uri, URI, "@uri", "file:{out}", 0)
  ]

  /** The Return's entity is named by its escaped value and labelled with the URI template
      exactly as written: a URI becomes a label and is never escaped. */
  lemma UriTemplateLabel()
    ensures ProvenanceInfo(SaveOutFile, SaveOutFile[0]) == Some(Entity("out_file", ["file:{out}"], []))
  {
    var a := SaveOutFile[0];
    UriOfSaveOutFile();
    TrimOfTrimmed("out_file");
    OutFileEscaped();
    assert FlowLabel(SaveOutFile, a) == Some("file:{out}");
  }

  lemma UriOfSaveOutFile()
    ensures QualsOf(SaveOutFile, SaveOutFile[0]).uri == Some("file:{out}")
  {
    var a := SaveOutFile[0];
    assert SaveOutFile[..1] == [a];
    assert [a][..0] == [];
    assert QualsOf(SaveOutFile[..1], a) == NoQuals;
  }

  /** `out_file` is its own escape: its underscore maps to itself. */
  lemma OutFileEscaped()
    ensures Escape("out_file") == "out_file"
  {
    var s := "out_file";
    var r := Escape(s);
    PlainNotForbidden('o');
    PlainNotForbidden('u');
    PlainNotForbidden('t');
    PlainNotForbidden('f');
    PlainNotForbidden('i');
    PlainNotForbidden('l');
    PlainNotForbidden('e');
    assert IsForbidden('_');
    assert r[0] == 'o' && r[1] == 'u' && r[2] == 't' && r[3] == '_';
    assert r[4] == 'f' && r[5] == 'i' && r[6] == 'l' && r[7] == 'e';
  }

  /** Lower-case letters are kept by `escapeForQName`. */
  lemma PlainNotForbidden(c: char)
    requires 'a' <= c <= 'z'
    ensures !IsForbidden(c)
  {
  }
}
