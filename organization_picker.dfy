/**
 * The organisation picker of internal/tui/organization_model.go: a cursor over the
 * organisations the account belongs to, moved with up/k and down/j, confirmed with enter
 * or space.  The picker is modelled as an object whose `Update` moves its cursor in place.
 * Saving the chosen organisation to the configuration file is left out; the choice is
 * returned instead.
 */
module OrganizationPicker {
  import opened Wrappers
  import opened Tea

  datatype Organization = Organization(id: string, name: string)

  /** The messages the picker distinguishes; `OtherMsg` stands for every non-key message. */
  datatype Msg = Key(key: string) | OtherMsg

  const Header: string := "Select an organization:\n\n"
  const Hints: string := "\nenter/space: select  •  up/down: navigate  •  q: quit\n"

  /** The text of one list entry. */
  function ItemText(o: Organization): string
  {
    o.name + " (ID: " + o.id + ")"
  }

  /** The list lines: the cursor line marked with "> ", every other one indented by two spaces. */
  function ListLines(orgs: seq<Organization>, cursor: int): (lines: seq<string>)
    ensures |lines| == |orgs|
    ensures forall i :: 0 <= i < |orgs| ==> |lines[i]| >= 2 && (lines[i][0] == '>' <==> i == cursor)
    ensures forall i :: 0 <= i < |orgs| ==> lines[i][2..] == ItemText(orgs[i])
  {
    seq(|orgs|, i requires 0 <= i < |orgs| => (if i == cursor then "> " else "  ") + ItemText(orgs[i]))
  }

  /** Each line followed by a newline. */
  function Unlines(lines: seq<string>): string
  {
    if lines == [] then "" else lines[0] + "\n" + Unlines(lines[1..])
  }

  lemma {:induction false} UnlinesAppend(lines: seq<string>, line: string)
    ensures Unlines(lines + [line]) == Unlines(lines) + line + "\n"
    decreases |lines|
  {
    if lines == [] {
      assert [] + [line] == [line];
    } else {
      assert (lines + [line])[1..] == lines[1..] + [line];
      UnlinesAppend(lines[1..], line);
    }
  }

  /** Exactly the cursor line of a non-empty list is marked. */
  lemma ExactlyOneMarked(orgs: seq<Organization>, cursor: int)
    requires 0 <= cursor < |orgs|
    ensures var lines := ListLines(orgs, cursor);
            lines[cursor][0] == '>' && forall i :: 0 <= i < |orgs| && i != cursor ==> lines[i][0] == ' '
  {
  }

  /** Appending line `i` to the text of the lines before it gives the text of the first `i + 1` lines. */
  lemma UnlinesStep(lines: seq<string>, i: nat, prefix: string)
    requires i < |lines|
    ensures prefix + Unlines(lines[..i + 1]) == prefix + Unlines(lines[..i]) + lines[i] + "\n"
  {
    assert lines[..i + 1] == lines[..i] + [lines[i]];
    var u := Unlines(lines[..i]);
    UnlinesAppend(lines[..i], lines[i]);
    assert prefix + (u + lines[i] + "\n") == prefix + u + lines[i] + "\n";
  }

  class OrganizationListModel {
    var organizations: seq<Organization>
    var cursor: int
    var selected: set<int>

    /** The cursor stays on an organisation (at 0 when there are none). */
    predicate Valid()
      reads this
    {
      0 <= cursor && (cursor < |organizations| || cursor == 0)
    }

    /** NewOrganizationListModel: the cursor on the first organisation and nothing selected. */
    constructor (orgs: seq<Organization>)
      ensures organizations == orgs && cursor == 0 && selected == {}
      ensures Valid()
    {
      organizations := orgs;
      cursor := 0;
      selected := {};
    }

    /** Init: no command, so no I/O and no quitting at start-up. */
    function Init(): (c: Cmd)
      ensures !c.Quit? && !c.Fetch? && !c.FetchAndTick?
    {
      NoCmd
    }

    /**
     * Update: q/ctrl+c quit; up/k and down/j move the cursor one place unless it is at the
     * top or bottom already; enter/space chooses the organisation under the cursor and quit;
     * anything else changes nothing.  Selecting needs an organisation under the cursor.
     */
    method Update(msg: Msg) returns (cmd: Cmd, chosen: Option<Organization>)
      requires msg == Key("enter") || msg == Key(" ") ==> 0 <= cursor < |organizations|
      modifies this
      ensures organizations == old(organizations) && selected == old(selected)
      ensures old(Valid()) ==> Valid()
      ensures msg == Key("up") || msg == Key("k") ==> cursor == (if old(cursor) > 0 then old(cursor) - 1 else old(cursor))
      ensures msg == Key("down") || msg == Key("j") ==>
                cursor == (if old(cursor) < |organizations| - 1 then old(cursor) + 1 else old(cursor))
      ensures !(msg in {Key("up"), Key("k"), Key("down"), Key("j")}) ==> cursor == old(cursor)
      ensures cmd == Quit <==> msg in {Key("q"), Key("ctrl+c"), Key("enter"), Key(" ")}
      ensures cmd != Quit ==> cmd == NoCmd
      ensures chosen.Some? <==> msg == Key("enter") || msg == Key(" ")
      ensures chosen.Some? ==> chosen.value == organizations[cursor]
    {
      cmd, chosen := NoCmd, None;
      if msg.Key? {
        var k := msg.key;
        if k == "ctrl+c" || k == "q" {
          cmd := Quit;
        } else if k == "up" || k == "k" {
          if cursor > 0 {
            cursor := cursor - 1;
          }
        } else if k == "down" || k == "j" {
          if cursor < |organizations| - 1 {
            cursor := cursor + 1;
          }
        } else if k == "enter" || k == " " {
          chosen := Some(organizations[cursor]);
          cmd := Quit;
        }
      }
    }

    /** View: the header, one line per organisation with the cursor line marked, then the key hints. */
    method View() returns (s: string)
      ensures s == Header + Unlines(ListLines(organizations, cursor)) + Hints
    {
      s := Header;
      var i := 0;
      while i < |organizations|
        invariant 0 <= i <= |organizations|
        invariant s == Header + Unlines(ListLines(organizations, cursor)[..i])
      {
        var line := ItemText(organizations[i]);
        if cursor == i {
          line := "> " + line;
        } else {
          line := "  " + line;
        }
        assert line == ListLines(organizations, cursor)[i];
        UnlinesStep(ListLines(organizations, cursor), i, Header);
        s := s + line + "\n";
        i := i + 1;
      }
      assert ListLines(organizations, cursor)[..i] == ListLines(organizations, cursor);
      s := s + Hints;
    }
  }
}
