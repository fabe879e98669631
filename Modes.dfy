/**
 * The two-valued editing mode and the file that shares it between processes (`Mode`,
 * `Mode::get_current_mode` and `Mode::write` in src/lib.rs). The file is abstracted to its content:
 * `None` while it does not exist, `Some(text)` once it does.
 */
module Modes {
  import opened Types

  datatype Mode = Insert | Normal

  /** How a read interprets the file's content: only the exact text "INSERT" means insert mode. */
  function Parse(text: string): (mode: Mode)
    ensures mode == Insert <==> text == "INSERT"
  {
    if text == "INSERT" then Insert else Normal
  }

  /** The text `write` stores for a mode; reading it back gives the same mode. */
  function Serialize(mode: Mode): (text: string)
    ensures Parse(text) == mode
    ensures text == "INSERT" <==> mode == Insert
    ensures mode == Normal ==> text == "NORMAL"
    ensures |text| == 6
  {
    match mode
    case Insert => "INSERT"
    case Normal => "NORMAL"
  }

  /**
   * The mode a read returns, given the file's content and whether opening it fails for a reason
   * other than its absence. Only an openable file holding exactly "INSERT" gives insert mode.
   */
  function ReadMode(content: Option<string>, openDenied: bool): (mode: Mode)
    ensures mode == Insert <==> !openDenied && content == Some("INSERT")
  {
    if openDenied then Normal
    else match content
      case None => Normal
      case Some(text) => Parse(text)
  }

  /** The file's content after a read: a missing file is created empty, anything else is left alone. */
  function ContentAfterRead(content: Option<string>, openDenied: bool): (after: Option<string>)
    ensures after.Some? || openDenied
    ensures content.Some? || openDenied ==> after == content
    ensures !openDenied && content.None? ==> after == Some("")
  {
    if !openDenied && content.None? then Some("") else content
  }

  /** Reading a file that was just written returns the mode written, and leaves it as it is. */
  lemma ReadAfterWrite(mode: Mode)
    ensures ReadMode(Some(Serialize(mode)), false) == mode
    ensures ContentAfterRead(Some(Serialize(mode)), false) == Some(Serialize(mode))
  {
  }

  /** A second read sees the file the first one left and returns the same mode without changing it. */
  lemma ReadIsStable(content: Option<string>, openDenied: bool)
    ensures var after := ContentAfterRead(content, openDenied);
      ReadMode(after, openDenied) == ReadMode(content, openDenied)
      && ContentAfterRead(after, openDenied) == after
  {
  }

  /** The mode file shared with other processes. */
  class ModeFile {
    /** The file's content, `None` while the file does not exist. */
    var content: Option<string>
    /** Every mode written to the file, oldest first. */
    ghost var written: seq<Mode>

    constructor (content: Option<string>)
      ensures this.content == content && written == []
    {
      this.content := content;
      written := [];
    }

    /**
     * Reads the current mode. `openDenied` stands for an open failure other than "not found"
     * (permissions, say), which yields normal mode and leaves the file alone.
     */
    method GetCurrentMode(openDenied: bool) returns (mode: Mode)
      modifies this`content
      ensures mode == ReadMode(old(content), openDenied)
      ensures content == ContentAfterRead(old(content), openDenied)
      ensures mode == Insert <==> !openDenied && old(content) == Some("INSERT")
      ensures !openDenied && old(content).None? ==> mode == Normal && content == Some("")
    {
      if !openDenied && content.Some? {
        var text := content.value;
        if text == "INSERT" {
          return Insert;
        } else {
          return Normal;
        }
      } else if !openDenied {
        // the file is missing: it is created empty
        content := Some("");
      }
      mode := Normal;
    }

    /** Overwrites the file with the mode's text; writing the same mode again leaves the same content. */
    method Write(mode: Mode)
      modifies this
      ensures content == Some(Serialize(mode))
      ensures written == old(written) + [mode]
      ensures ReadMode(content, false) == mode
    {
      var text := "NORMAL";
      if mode == Insert {
        text := "INSERT";
      }
      content := Some(text);
      written := written + [mode];
    }
  }
}
