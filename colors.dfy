/** The ANSI escape codes of the `ANSIColors` class and the colour table a device
    line is drawn with. */
module Colors {

  const ESC: char := '\U{1B}'

  const RESET: string := "\U{1B}[0m"
  const WHITE: string := "\U{1B}[1m"
  const RED: string := "\U{1B}[0;31m"
  const GREEN: string := "\U{1B}[0;32m"
  const YELLOW: string := "\U{1B}[0;33m"
  const BLUE: string := "\U{1B}[0;34m"
  const MAGENTA: string := "\U{1B}[0;35m"
  const CYAN: string := "\U{1B}[0;36m"
  const GRAY: string := "\U{1B}[1;30m"
  const BOLD_RED: string := "\U{1B}[1;31m"
  const BOLD_GREEN: string := "\U{1B}[1;32m"
  const BOLD_YELLOW: string := "\U{1B}[1;33m"

  /** `ANSIColors.wrap`: the message between a colour code and the reset code. */
  function Wrap(color: string, msg: string): (r: string)
    ensures |r| == |color| + |msg| + |RESET|
    ensures r[..|color|] == color
    ensures r[|color|..|color| + |msg|] == msg
    ensures r[|color| + |msg|..] == RESET
  {
    color + msg + RESET
  }

  /** The `colors` dict of `GPUStat.print_to`: one code per part of the line. */
  datatype Palette = Palette(
    c0: string,      // reset
    c1: string,      // index, command
    cName: string,   // device name
    cTemp: string,   // temperature
    cMemU: string,   // memory used
    cMemT: string,   // memory total
    cMemP: string,   // per-process memory
    cUser: string,   // user name
    cUtil: string)   // utilisation

  /** Every code of a palette is empty: the line carries no colour. */
  predicate IsBlank(p: Palette) {
    p.c0 == p.c1 == p.cName == p.cTemp == p.cMemU == p.cMemT == p.cMemP == p.cUser == p.cUtil == ""
  }

  /** The palette for a device whose temperature and utilisation read as `temp`
      and `util`; every code is blanked when colours are off. */
  function PaletteFor(withColors: bool, temp: int, util: int): (p: Palette)
    ensures !withColors <==> IsBlank(p)
    ensures withColors ==> (p.cTemp == BOLD_RED <==> temp >= 50) && (p.cTemp == RED <==> temp < 50)
    ensures withColors ==> (p.cUtil == BOLD_GREEN <==> util >= 30) && (p.cUtil == GREEN <==> util < 30)
    ensures withColors ==>
      && p.c0 == RESET && p.c1 == CYAN && p.cName == BLUE && p.cMemU == BOLD_YELLOW
      && p.cMemT == YELLOW && p.cMemP == YELLOW && p.cUser == GRAY
  {
    if withColors then
      Palette(RESET, CYAN, BLUE, if temp < 50 then RED else BOLD_RED, BOLD_YELLOW,
              YELLOW, YELLOW, GRAY, if util < 30 then GREEN else BOLD_GREEN)
    else
      Palette("", "", "", "", "", "", "", "", "")
  }
}
