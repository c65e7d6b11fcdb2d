/** The program image handed to the interpreter. */
module Rom {
  import opened Chip8Types

  class ROM {
    var data: seq<Byte>

    constructor()
      ensures data == []
    {
      data := [];
    }

    /** Takes a copy of any byte sequence; it never refuses one. */
    method Load(bytes: seq<Byte>) returns (loaded: bool)
      modifies this
      ensures loaded
      ensures GetData() == bytes
    {
      data := bytes;
      loaded := true;
    }

    function GetData(): seq<Byte>
      reads this
    {
      data
    }
  }
}
