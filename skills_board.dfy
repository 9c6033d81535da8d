/** The two-column skills board of `src/components/dashboard/SkillsBoard.tsx`:
    fetched skills grouped by section, and the board updates that follow a
    successful delete, rename or insert. The remote store's answers are
    parameters; the requests made are returned. */
module SkillsBoard {
  import opened Common

  datatype Section = Planning | Practicing

  /** The column name a section is stored under. */
  function SectionName(sec: Section): (name: string)
    ensures name == "planning" <==> sec == Planning
    ensures name == "practicing" <==> sec == Practicing
  {
    match sec
    case Planning => "planning"
    case Practicing => "practicing"
  }

  /** A fetched row of `skills`: its section is whatever string the store
      holds. */
  datatype BoardSkill = BoardSkill(id: string, name: string, section: string)

  /** `{ planning, practicing }`. */
  datatype Board = Board(planning: seq<BoardSkill>, practicing: seq<BoardSkill>)

  const EmptyBoard := Board([], [])

  function Bucket(b: Board, sec: Section): seq<BoardSkill>
  {
    match sec
    case Planning => b.planning
    case Practicing => b.practicing
  }

  /** `{ ...prev, [section]: items }`. */
  function WithBucket(b: Board, sec: Section, items: seq<BoardSkill>): (r: Board)
    ensures Bucket(r, sec) == items
    ensures forall other :: other != sec ==> Bucket(r, other) == Bucket(b, other)
  {
    match sec
    case Planning => b.(planning := items)
    case Practicing => b.(practicing := items)
  }

  /** The board's invariant: every skill sits in its own section's column. */
  predicate Partitioned(b: Board)
  {
    forall sec: Section, i :: 0 <= i < |Bucket(b, sec)| ==> Bucket(b, sec)[i].section == SectionName(sec)
  }

  /** The rows a section's column collects. */
  function InSection(sec: Section): BoardSkill -> bool
  {
    (x: BoardSkill) => x.section == SectionName(sec)
  }

  /** A row the grouping can place: one whose section names a column. */
  predicate Placeable(x: BoardSkill)
  {
    x.section == SectionName(Planning) || x.section == SectionName(Practicing)
  }

  /** The grouping of well-formed rows loses none and invents none: the two
      columns together are as long as the fetched list. */
  lemma {:induction false} GroupedLengths(rows: seq<BoardSkill>)
    requires forall i :: 0 <= i < |rows| ==> Placeable(rows[i])
    ensures |Filter(rows, InSection(Planning))| + |Filter(rows, InSection(Practicing))| == |rows|
    decreases |rows|
  {
    if rows != [] {
      assert forall i :: 0 <= i < |rows[1..]| ==> rows[1..][i] == rows[i + 1];
      GroupedLengths(rows[1..]);
    }
  }

  /** The grouped board satisfies the invariant. */
  lemma GroupedIsPartitioned(rows: seq<BoardSkill>)
    ensures Partitioned(Board(Filter(rows, InSection(Planning)), Filter(rows, InSection(Practicing))))
  {
    var b := Board(Filter(rows, InSection(Planning)), Filter(rows, InSection(Practicing)));
    forall sec: Section, i | 0 <= i < |Bucket(b, sec)|
      ensures Bucket(b, sec)[i].section == SectionName(sec)
    {
      assert Bucket(b, sec) == Filter(rows, InSection(sec));
      assert Bucket(b, sec)[i] in Filter(rows, InSection(sec));
    }
  }

  /** One more row adds itself to its own section's column only. */
  lemma GroupStep(rows: seq<BoardSkill>, i: nat, sec: Section)
    requires i < |rows|
    ensures Filter(rows[..i + 1], InSection(sec))
      == Filter(rows[..i], InSection(sec)) + (if rows[i].section == SectionName(sec) then [rows[i]] else [])
  {
    assert rows[..i + 1] == rows[..i] + [rows[i]];
    FilterConcat(rows[..i], [rows[i]], InSection(sec));
    assert [rows[i]][1..] == [];
  }

  /** The reduce in `loadSkills`: pushes every row onto its section's
      column, in fetch order. A row with any other section makes the push
      throw, which the model reports as None. */
  method GroupSkills(rows: seq<BoardSkill>) returns (r: Option<Board>)
    ensures r.None? <==> exists i :: 0 <= i < |rows| && !Placeable(rows[i])
    ensures r.Some? ==> r.value == Board(Filter(rows, InSection(Planning)), Filter(rows, InSection(Practicing)))
  {
    var planning: seq<BoardSkill> := [];
    var practicing: seq<BoardSkill> := [];
    var i := 0;
    while i < |rows|
      invariant 0 <= i <= |rows|
      invariant forall k :: 0 <= k < i ==> Placeable(rows[k])
      invariant planning == Filter(rows[..i], InSection(Planning))
      invariant practicing == Filter(rows[..i], InSection(Practicing))
    {
      var skill := rows[i];
      GroupStep(rows, i, Planning);
      GroupStep(rows, i, Practicing);
      if skill.section == SectionName(Planning) {
        planning := planning + [skill];
      } else if skill.section == SectionName(Practicing) {
        practicing := practicing + [skill];
      } else {
        return None;
      }
      i := i + 1;
    }
    assert rows[..i] == rows;
    r := Some(Board(planning, practicing));
  }

  /** The characters JavaScript's `trim()` removes: white space and line
      terminators. */
  predicate JsWhitespace(c: char)
  {
    || c == '\t' || c == '\n' || c == '\U{0B}' || c == '\U{0C}' || c == '\r' || c == ' '
    || c == '\U{A0}' || c == '\U{1680}' || ('\U{2000}' <= c <= '\U{200A}')
    || c == '\U{2028}' || c == '\U{2029}' || c == '\U{202F}' || c == '\U{205F}'
    || c == '\U{3000}' || c == '\U{FEFF}'
  }

  /** `s` without its leading white space. */
  function TrimStart(s: string): (r: string)
    ensures |r| <= |s| && r == s[|s| - |r|..]
    ensures forall i :: 0 <= i < |s| - |r| ==> JsWhitespace(s[i])
    ensures r == [] || !JsWhitespace(r[0])
    decreases |s|
  {
    if s != [] && JsWhitespace(s[0]) then TrimStart(s[1..]) else s
  }

  /** `s` without its trailing white space. */
  function TrimEnd(s: string): (r: string)
    ensures |r| <= |s| && r == s[..|r|]
    ensures forall i :: |r| <= i < |s| ==> JsWhitespace(s[i])
    ensures r == [] || !JsWhitespace(r[|r| - 1])
    decreases |s|
  {
    if s != [] && JsWhitespace(s[|s| - 1]) then TrimEnd(s[..|s| - 1]) else s
  }

  /** `s.trim()`: what is left after the leading white space, up to and
      without its trailing white space; empty exactly when `s` is all white
      space, and otherwise starting and ending with other characters. */
  function Trim(s: string): (r: string)
    ensures |r| <= |s|
    ensures r == [] <==> forall i :: 0 <= i < |s| ==> JsWhitespace(s[i])
    ensures r != [] ==> !JsWhitespace(r[0]) && !JsWhitespace(r[|r| - 1])
    ensures r <= TrimStart(s)
    ensures forall i :: |r| <= i < |TrimStart(s)| ==> JsWhitespace(TrimStart(s)[i])
  {
    TrimEndOfTrimStart(s);
    TrimEnd(TrimStart(s))
  }

  /** Trimming the end of what the leading trim left keeps its first
      character, and leaves nothing exactly when `s` is all white space. */
  lemma TrimEndOfTrimStart(s: string)
    ensures var t := TrimStart(s);
      && |TrimEnd(t)| <= |s|
      && (TrimEnd(t) == [] <==> forall i :: 0 <= i < |s| ==> JsWhitespace(s[i]))
      && (TrimEnd(t) != [] ==> !JsWhitespace(TrimEnd(t)[0]) && !JsWhitespace(TrimEnd(t)[|TrimEnd(t)| - 1]))
      && TrimEnd(t) <= t
      && forall i :: |TrimEnd(t)| <= i < |t| ==> JsWhitespace(t[i])
  {
    var t := TrimStart(s);
    var r := TrimEnd(t);
    if r != [] {
      assert r[0] == t[..|r|][0];
    }
    if t != [] {
      assert t[0] == s[|s| - |t|];
    }
  }

  /** A name the save refuses: empty once trimmed. */
  predicate Blank(name: string)
  {
    Trim(name) == []
  }

  /** Blank names are exactly the all-white-space ones, so a name with one
      visible character is accepted, untrimmed. */
  lemma BlankExamples()
    ensures Blank("") && Blank(" \t\n") && Blank("\U{A0}\U{3000}")
    ensures !Blank(" dink ") && !Blank("lob")
  {
    assert !JsWhitespace(" dink "[1]);
    assert !JsWhitespace("lob"[0]);
  }

  /** The skills a delete of `id` keeps. */
  function NotId(id: string): BoardSkill -> bool
  {
    (x: BoardSkill) => x.id != id
  }

  /** The column after a delete succeeded: the skill with that id is gone
      from the given section. */
  function DeleteFromBoard(b: Board, sec: Section, id: string): (r: Board)
    ensures forall x :: x in Bucket(r, sec) <==> x in Bucket(b, sec) && x.id != id
    ensures |Bucket(r, sec)| == |Bucket(b, sec)| <==> forall i :: 0 <= i < |Bucket(b, sec)| ==> Bucket(b, sec)[i].id != id
    ensures forall other :: other != sec ==> Bucket(r, other) == Bucket(b, other)
  {
    FilterKeepsAll(Bucket(b, sec), NotId(id));
    WithBucket(b, sec, Filter(Bucket(b, sec), NotId(id)))
  }

  /** The column after a rename succeeded: the skill with that id, if the
      section has it, takes the new name and keeps its id and section. */
  function RenameInBoard(b: Board, sec: Section, id: string, name: string): (r: Board)
    ensures |Bucket(r, sec)| == |Bucket(b, sec)|
    ensures forall i :: 0 <= i < |Bucket(b, sec)| ==>
      var x := Bucket(b, sec)[i];
      Bucket(r, sec)[i] == if x.id == id then BoardSkill(x.id, name, x.section) else x
    ensures forall other :: other != sec ==> Bucket(r, other) == Bucket(b, other)
  {
    var items := Bucket(b, sec);
    WithBucket(b, sec, seq(|items|, i requires 0 <= i < |items| => if items[i].id == id then items[i].(name := name) else items[i]))
  }

  /** The column after an insert succeeded: the returned row at its end. */
  function AppendToBoard(b: Board, sec: Section, row: BoardSkill): (r: Board)
    ensures Bucket(r, sec) == Bucket(b, sec) + [row]
    ensures forall other :: other != sec ==> Bucket(r, other) == Bucket(b, other)
  {
    WithBucket(b, sec, Bucket(b, sec) + [row])
  }

  /** Deleting keeps the invariant. */
  lemma DeleteKeepsPartition(b: Board, sec: Section, id: string)
    requires Partitioned(b)
    ensures Partitioned(DeleteFromBoard(b, sec, id))
  {
    var r := DeleteFromBoard(b, sec, id);
    forall s: Section, i | 0 <= i < |Bucket(r, s)|
      ensures Bucket(r, s)[i].section == SectionName(s)
    {
      if s == sec {
        assert Bucket(r, s)[i] in Bucket(b, s);
      }
    }
  }

  /** Renaming keeps the invariant. */
  lemma RenameKeepsPartition(b: Board, sec: Section, id: string, name: string)
    requires Partitioned(b)
    ensures Partitioned(RenameInBoard(b, sec, id, name))
  {
  }

  /** Appending a row of the column's own section keeps the invariant. */
  lemma AppendKeepsPartition(b: Board, sec: Section, row: BoardSkill)
    requires Partitioned(b)
    requires row.section == SectionName(sec)
    ensures Partitioned(AppendToBoard(b, sec, row))
  {
    var r := AppendToBoard(b, sec, row);
    forall s: Section, i | 0 <= i < |Bucket(r, s)|
      ensures Bucket(r, s)[i].section == SectionName(s)
    {
      if s == sec && i < |Bucket(b, s)| {
        assert Bucket(r, s)[i] == Bucket(b, s)[i];
      }
    }
  }

  /** A delete of an id the section does not hold leaves the board as it
      was; deleting twice is deleting once. */
  lemma DeleteIdempotent(b: Board, sec: Section, id: string)
    ensures DeleteFromBoard(DeleteFromBoard(b, sec, id), sec, id) == DeleteFromBoard(b, sec, id)
  {
    var items := Bucket(DeleteFromBoard(b, sec, id), sec);
    FilterKeepsAll(items, NotId(id));
    assert forall i :: 0 <= i < |items| ==> items[i].id != id by {
      forall i | 0 <= i < |items| ensures items[i].id != id {
        assert items[i] in items;
      }
    }
  }

  /** The remote calls the board makes. */
  datatype SkillRequest =
    | SelectSkills(userId: string)
    | DeleteSkill(id: string)
    | UpdateSkillName(id: string, name: string)
    | InsertSkill(userId: string, name: string, section: string)

  /** A toast: its title and whether it reports an error. */
  datatype Notice = Notice(title: string, isError: bool)

  /** What a save leads to: the board, the requests made, the toast, and
      whether the dialog closes. */
  datatype SaveResult = SaveResult(board: Board, calls: seq<SkillRequest>, notice: Notice, closes: bool)

  /** `handleSaveSkill` for the selected section, the skill being edited (if
      any) and the typed name. A blank name is refused before anything else.
      Otherwise, for a signed-in user, the edited skill is renamed or a new
      one is inserted into the selected section under the untrimmed name;
      `newId` is the id of the row the insert returns. Only a write without
      error changes the board and closes the dialog. */
  function SaveSkill(b: Board, sec: Section, editing: Option<BoardSkill>, name: string,
                     user: Option<string>, writeFailed: bool, newId: string): (r: SaveResult)
    ensures Blank(name) ==> r == SaveResult(b, [], Notice("Please enter a skill name", true), false)
    ensures !Blank(name) && user.None? ==> r == SaveResult(b, [], Notice("Error saving skill", true), false)
    ensures !Blank(name) && user.Some? ==>
      && r.calls == [if editing.Some? then UpdateSkillName(editing.value.id, name)
                     else InsertSkill(user.value, name, SectionName(sec))]
      && (writeFailed ==> r.board == b && !r.closes && r.notice == Notice("Error saving skill", true))
      && (!writeFailed ==> r.closes && r.notice == Notice(if editing.Some? then "Skill updated" else "Skill added", false))
      && (!writeFailed && editing.Some? ==> r.board == RenameInBoard(b, sec, editing.value.id, name))
      && (!writeFailed && editing.None? ==> r.board == AppendToBoard(b, sec, BoardSkill(newId, name, SectionName(sec))))
    ensures r.board != b ==> r.closes
  {
    if Blank(name) then SaveResult(b, [], Notice("Please enter a skill name", true), false)
    else if user.None? then SaveResult(b, [], Notice("Error saving skill", true), false)
    else if editing.Some? then
      var calls := [UpdateSkillName(editing.value.id, name)];
      if writeFailed then SaveResult(b, calls, Notice("Error saving skill", true), false)
      else SaveResult(RenameInBoard(b, sec, editing.value.id, name), calls, Notice("Skill updated", false), true)
    else
      var calls := [InsertSkill(user.value, name, SectionName(sec))];
      if writeFailed then SaveResult(b, calls, Notice("Error saving skill", true), false)
      else SaveResult(AppendToBoard(b, sec, BoardSkill(newId, name, SectionName(sec))), calls, Notice("Skill added", false), true)
  }

  /** Every save keeps the invariant. */
  lemma SaveKeepsPartition(b: Board, sec: Section, editing: Option<BoardSkill>, name: string,
                           user: Option<string>, writeFailed: bool, newId: string)
    requires Partitioned(b)
    ensures Partitioned(SaveSkill(b, sec, editing, name, user, writeFailed, newId).board)
  {
    if !Blank(name) && user.Some? && !writeFailed {
      if editing.Some? {
        RenameKeepsPartition(b, sec, editing.value.id, name);
      } else {
        AppendKeepsPartition(b, sec, BoardSkill(newId, name, SectionName(sec)));
      }
    }
  }

  class SkillsBoardView {
    var board: Board
    var isLoading: bool
    /** `selectedSkill`: the section (None for the initial `''`) and the
        skill being edited, if any. */
    var section: Option<Section>
    var editing: Option<BoardSkill>
    var newSkillName: string
    var isOpen: bool

    ghost predicate Valid()
      reads this
    {
      Partitioned(board) && (isOpen ==> section.Some?)
    }

    /** Empty columns, loading, nothing selected, dialog closed. */
    constructor ()
      ensures Valid()
      ensures board == EmptyBoard && isLoading
      ensures section.None? && editing.None? && newSkillName == "" && !isOpen
    {
      board := EmptyBoard;
      isLoading := true;
      section := None;
      editing := None;
      newSkillName := "";
      isOpen := false;
    }

    /** `loadSkills`: with a user and a fetched list (`fetched` is None
        when the store reports an error) the board becomes the grouping of
        the list; no user, a store error or an unplaceable row leave it as
        it was and raise an error toast. Loading ends in every case. */
    method LoadSkills(user: Option<string>, fetched: Option<seq<BoardSkill>>)
      returns (calls: seq<SkillRequest>, notice: Option<Notice>)
      requires Valid()
      modifies this
      ensures Valid() && !isLoading
      ensures section == old(section) && editing == old(editing)
      ensures newSkillName == old(newSkillName) && isOpen == old(isOpen)
      ensures calls == if user.Some? then [SelectSkills(user.value)] else []
      ensures var ok := user.Some? && fetched.Some? && forall i :: 0 <= i < |fetched.value| ==> Placeable(fetched.value[i]);
        && (ok ==> board == Board(Filter(fetched.value, InSection(Planning)), Filter(fetched.value, InSection(Practicing))) && notice.None?)
        && (!ok ==> board == old(board) && notice == Some(Notice("Error loading skills", true)))
    {
      notice := None;
      calls := [];
      if user.Some? {
        calls := [SelectSkills(user.value)];
        if fetched.Some? {
          var grouped := GroupSkills(fetched.value);
          if grouped.Some? {
            GroupedIsPartitioned(fetched.value);
            board := grouped.value;
            isLoading := false;
            return;
          }
        }
      }
      notice := Some(Notice("Error loading skills", true));
      isLoading := false;
    }

    /** `handleAddSkill(section)`: opens the dialog on an empty name. */
    method HandleAddSkill(sec: Section)
      requires Valid()
      modifies this
      ensures Valid()
      ensures section == Some(sec) && editing.None? && newSkillName == "" && isOpen
      ensures board == old(board) && isLoading == old(isLoading)
    {
      section := Some(sec);
      editing := None;
      newSkillName := "";
      isOpen := true;
    }

    /** `handleEditSkill(section, skill)`: opens the dialog on its name. */
    method HandleEditSkill(sec: Section, skill: BoardSkill)
      requires Valid()
      modifies this
      ensures Valid()
      ensures section == Some(sec) && editing == Some(skill) && newSkillName == skill.name && isOpen
      ensures board == old(board) && isLoading == old(isLoading)
    {
      section := Some(sec);
      editing := Some(skill);
      newSkillName := skill.name;
      isOpen := true;
    }

    /** Typing in the name field. */
    method SetNewSkillName(name: string)
      requires Valid()
      modifies this
      ensures Valid()
      ensures newSkillName == name
      ensures board == old(board) && section == old(section) && editing == old(editing)
      ensures isOpen == old(isOpen) && isLoading == old(isLoading)
    {
      newSkillName := name;
    }

    /** Cancel or the close button. */
    method Close()
      requires Valid()
      modifies this
      ensures Valid() && !isOpen
      ensures board == old(board) && section == old(section) && editing == old(editing)
      ensures newSkillName == old(newSkillName) && isLoading == old(isLoading)
    {
      isOpen := false;
    }

    /** `handleDeleteSkill(section, id)`: the board changes only when the
        store reports no error. */
    method HandleDeleteSkill(sec: Section, id: string, deleteFailed: bool)
      returns (calls: seq<SkillRequest>, notice: Notice)
      requires Valid()
      modifies this
      ensures Valid()
      ensures calls == [DeleteSkill(id)]
      ensures board == if deleteFailed then old(board) else DeleteFromBoard(old(board), sec, id)
      ensures notice == if deleteFailed then Notice("Error deleting skill", true) else Notice("Skill deleted", false)
      ensures section == old(section) && editing == old(editing) && newSkillName == old(newSkillName)
      ensures isOpen == old(isOpen) && isLoading == old(isLoading)
    {
      calls := [DeleteSkill(id)];
      if deleteFailed {
        notice := Notice("Error deleting skill", true);
      } else {
        DeleteKeepsPartition(board, sec, id);
        board := DeleteFromBoard(board, sec, id);
        notice := Notice("Skill deleted", false);
      }
    }

    /** `handleSaveSkill` with the dialog open: the board, requests,
        toast and closing are those of `SaveSkill`. */
    method HandleSaveSkill(user: Option<string>, writeFailed: bool, newId: string)
      returns (calls: seq<SkillRequest>, notice: Notice)
      requires Valid() && isOpen
      modifies this
      ensures Valid()
      ensures section == old(section) && editing == old(editing) && newSkillName == old(newSkillName)
      ensures isLoading == old(isLoading)
      ensures SaveResult(board, calls, notice, !isOpen)
        == SaveSkill(old(board), section.value, editing, newSkillName, user, writeFailed, newId)
    {
      var r := SaveSkill(board, section.value, editing, newSkillName, user, writeFailed, newId);
      SaveKeepsPartition(board, section.value, editing, newSkillName, user, writeFailed, newId);
      board, calls, notice := r.board, r.calls, r.notice;
      if r.closes {
        isOpen := false;
      }
    }
  }
}
