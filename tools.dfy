/**
 * Helpers shared by the crates: the file name built from a prompt and the
 * name of the root role.
 */
module Tools {
  import Text
  import Types

  /** Each word lower-cased, in order. */
  function LowerWords(ws: seq<string>): (r: seq<string>)
    ensures |r| == |ws| && forall i :: 0 <= i < |ws| ==> r[i] == Text.Lower(ws[i])
  {
    seq(|ws|, i requires 0 <= i < |ws| => Text.Lower(ws[i]))
  }

  /** The scheduler, a dash, then the prompt's lower-cased words joined by underscores; it never fails. */
  function Rename(prompt: string, scheduler: string): string
  {
    scheduler + "-" + Text.Join(LowerWords(Text.Words(prompt)), "_")
  }

  /** A prompt with nothing but whitespace gives the scheduler and a dash. */
  lemma RenameBlank(prompt: string, scheduler: string)
    requires Text.Blank(prompt)
    ensures Rename(prompt, scheduler) == scheduler + "-"
  {
    Text.NoWordsIffBlank(prompt);
  }

  /** Lower-casing neither adds nor removes an underscore. */
  lemma LowerKeepsUnderscores(w: string)
    ensures '_' in Text.Lower(w) <==> '_' in w
  {
    var l := Text.Lower(w);
    if '_' in l {
      var i :| 0 <= i < |l| && l[i] == '_';
      assert w[i] == '_';
    }
    if '_' in w {
      var i :| 0 <= i < |w| && w[i] == '_';
      assert l[i] == '_';
    }
  }

  /**
   * The name starts with the scheduler and a dash, and splitting the rest at
   * the underscores gives back the prompt's lower-cased words in order, as
   * long as no word holds an underscore itself.
   */
  lemma RenameRecoversWords(prompt: string, scheduler: string)
    requires !Text.Blank(prompt)
    requires forall w | w in Text.Words(prompt) :: '_' !in w
    ensures var r := Rename(prompt, scheduler);
      |r| > |scheduler| && r[..|scheduler| + 1] == scheduler + "-"
      && Text.Split(r[|scheduler| + 1..], '_') == LowerWords(Text.Words(prompt))
  {
    var ws := Text.Words(prompt);
    var lowered := LowerWords(ws);
    Text.NoWordsIffBlank(prompt);
    forall w | w in lowered
      ensures '_' !in w
    {
      var i :| 0 <= i < |lowered| && lowered[i] == w;
      LowerKeepsUnderscores(ws[i]);
    }
    Text.SplitJoin(lowered, '_');
    var r := Rename(prompt, scheduler);
    assert r == (scheduler + "-") + Text.Join(lowered, "_");
  }
}
