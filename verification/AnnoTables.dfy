/** The tables of the annotation parser, src/cmixshow/y-tab.c, and the proof that they pass the
    local check: everything proved of the engine holds of this parser. */
module AnnoTables {
  import opened LrTables
  import opened LrTermination

  // ---- The tables, in rows of ten -----------------------------------------------------------

  function PactAt0x(i: int): int {
    match i
    case 0 => -2 case 1 => -21 case 2 => -14 case 3 => -5 case 4 => 3 case 5 => 28 case 6 => 32 case 7 => 12
    case 8 => 16 case 9 => 34 case _ => -32768
  }

  function PactAt1x(i: int): int {
    match i
    case 10 => 18 case 11 => 23 case 12 => 19 case 13 => 21 case 16 => 17 case 17 => 24 case 19 => 19 case _ => -32768
  }

  function PactAt2x(i: int): int {
    match i
    case 20 => 25 case 21 => 30 case 22 => 26 case 24 => 27 case 26 => 1 case _ => -32768
  }

  function PactAt3x(i: int): int { match i case 32 => 37 case 33 => 29 case 34 => 33 case 38 => 35 case _ => -32768 }
  function PactAt4x(i: int): int {
    match i
    case 42 => -9 case 44 => -3 case 45 => 36 case 46 => -3 case 47 => 38 case 49 => 39 case _ => -32768
  }

  function PactAt5x(i: int): int {
    match i
    case 54 => 5 case 56 => 41 case 57 => 40 case 58 => 5 case 59 => 44 case _ => -32768
  }

  function PactAt6x(i: int): int {
    match i
    case 60 => 14 case 62 => 42 case 63 => 46 case 67 => 5 case 68 => 43 case 69 => 45 case _ => -32768
  }

  function PactAt7x(i: int): int {
    match i
    case 71 => 15 case 72 => -9 case 73 => 47 case 76 => 53 case 77 => 61 case _ => -32768
  }

  /** yypact */
  function PactAt(i: int): int {
    if i < 40 then
      if i < 20 then
        if i < 10 then PactAt0x(i) else PactAt1x(i)
      else
        if i < 30 then PactAt2x(i) else PactAt3x(i)
    else
      if i < 60 then
        if i < 50 then PactAt4x(i) else PactAt5x(i)
      else
        if i < 70 then PactAt6x(i) else PactAt7x(i)
  }

  function DefactAt0x(i: int): int { match i case 2 => 1 case _ => 0 }
  function DefactAt1x(i: int): int { match i case 14 => 2 case 15 => 3 case 18 => 5 case 19 => 6 case _ => 0 }
  function DefactAt2x(i: int): int {
    match i
    case 23 => 7 case 25 => 9 case 26 => 10 case 27 => 4 case 28 => 8 case 29 => 12 case _ => 0
  }

  function DefactAt3x(i: int): int {
    match i
    case 30 => 20 case 31 => 21 case 35 => 11 case 36 => 13 case 37 => 14 case 39 => 17 case _ => 0
  }

  function DefactAt4x(i: int): int {
    match i
    case 40 => 15 case 41 => 16 case 43 => 31 case 48 => 32 case 49 => 28 case _ => 0
  }

  function DefactAt5x(i: int): int {
    match i
    case 50 => 30 case 51 => 36 case 52 => 37 case 53 => 33 case 54 => 24 case 55 => 34 case 58 => 26 case _ => 0
  }

  function DefactAt6x(i: int): int {
    match i
    case 61 => 25 case 64 => 27 case 65 => 18 case 66 => 19 case 67 => 24 case _ => 0
  }

  function DefactAt7x(i: int): int { match i case 70 => 23 case 71 => 22 case 74 => 35 case 75 => 29 case _ => 0 }

  /** yydefact */
  function DefactAt(i: int): int {
    if i < 40 then
      if i < 20 then
        if i < 10 then DefactAt0x(i) else DefactAt1x(i)
      else
        if i < 30 then DefactAt2x(i) else DefactAt3x(i)
    else
      if i < 60 then
        if i < 50 then DefactAt4x(i) else DefactAt5x(i)
      else
        if i < 70 then DefactAt6x(i) else DefactAt7x(i)
  }

  function PgotoAt0x(i: int): int { match i case 4 => 49 case 7 => 48 case 9 => -26 case _ => -32768 }
  function PgotoAt1x(i: int): int {
    match i
    case 12 => 2 case 13 => 4 case 14 => 6 case 15 => -44 case 19 => -10 case _ => -32768
  }

  function PgotoAt2x(i: int): int { match i case 20 => 31 case _ => -32768 }

  /** yypgoto */
  function PgotoAt(i: int): int {
    if i < 10 then
      PgotoAt0x(i)
    else
      if i < 20 then PgotoAt1x(i) else PgotoAt2x(i)
  }

  function DefgotoAt0x(i: int): int {
    match i
    case 0 => 76 case 1 => 5 case 2 => 2 case 3 => 9 case 4 => 18 case 5 => 19 case 6 => 14 case 7 => 25 case 8 => 26
    case 9 => 58 case _ => -1
  }

  function DefgotoAt1x(i: int): int {
    match i
    case 10 => 37 case 11 => 38 case 12 => 59 case 13 => 60 case 14 => 61 case 15 => 52 case 16 => 39 case 17 => 40
    case 18 => 41 case 19 => 48 case _ => -1
  }

  function DefgotoAt2x(i: int): int { match i case 20 => 53 case _ => -1 }

  /** yydefgoto */
  function DefgotoAt(i: int): int {
    if i < 10 then
      DefgotoAt0x(i)
    else
      if i < 20 then DefgotoAt1x(i) else DefgotoAt2x(i)
  }

  function TableAt0x(i: int): int {
    match i
    case 0 => 36 case 1 => 1 case 2 => 3 case 3 => 46 case 4 => 30 case 5 => 31 case 6 => 47 case 7 => 32 case 8 => 30
    case 9 => 31 case _ => 0
  }

  function TableAt1x(i: int): int {
    match i
    case 10 => 4 case 11 => 32 case 12 => 30 case 13 => 31 case 14 => 49 case 15 => 32 case 16 => 67 case 17 => 50
    case 18 => 51 case 19 => 6 case _ => 0
  }

  function TableAt2x(i: int): int {
    match i
    case 20 => 51 case 21 => 33 case 22 => 34 case 23 => 24 case 24 => 7 case 25 => 33 case 26 => 34 case 27 => 67
    case 28 => 66 case 29 => 33 case _ => 0
  }

  function TableAt3x(i: int): int {
    match i
    case 30 => 34 case 31 => 49 case 32 => 49 case 33 => 8 case 34 => 50 case 35 => 50 case 36 => 10 case 37 => 11
    case 38 => 16 case 39 => 12 case _ => 0
  }

  function TableAt4x(i: int): int {
    match i
    case 40 => 13 case 41 => 15 case 42 => 21 case 43 => 17 case 44 => 20 case 45 => 22 case 46 => 27 case 47 => 24
    case 48 => 42 case 49 => 54 case _ => 0
  }

  function TableAt5x(i: int): int {
    match i
    case 50 => 62 case 51 => 28 case 52 => 29 case 53 => 77 case 54 => 43 case 55 => 69 case 56 => 44 case 57 => 57
    case 58 => 65 case 59 => 72 case _ => 0
  }

  function TableAt6x(i: int): int {
    match i
    case 60 => 45 case 61 => 78 case 62 => 74 case 63 => 56 case 64 => 64 case 65 => 63 case 66 => 75 case 67 => 68
    case 68 => 23 case 69 => 70 case _ => 0
  }

  function TableAt7x(i: int): int { match i case 70 => 73 case 71 => 71 case 74 => 35 case 77 => 55 case _ => 0 }

  /** yytable */
  function TableAt(i: int): int {
    if i < 40 then
      if i < 20 then
        if i < 10 then TableAt0x(i) else TableAt1x(i)
      else
        if i < 30 then TableAt2x(i) else TableAt3x(i)
    else
      if i < 60 then
        if i < 50 then TableAt4x(i) else TableAt5x(i)
      else
        if i < 70 then TableAt6x(i) else TableAt7x(i)
  }

  function CheckAt0x(i: int): int {
    match i
    case 0 => 26 case 1 => 3 case 2 => 23 case 3 => 12 case 4 => 7 case 5 => 8 case 6 => 15 case 7 => 10 case 8 => 7
    case 9 => 8 case _ => -1
  }

  function CheckAt1x(i: int): int {
    match i
    case 10 => 24 case 11 => 10 case 12 => 7 case 13 => 8 case 14 => 17 case 15 => 10 case 16 => 60 case 17 => 20
    case 18 => 44 case 19 => 24 case _ => -1
  }

  function CheckAt2x(i: int): int {
    match i
    case 20 => 46 case 21 => 24 case 22 => 25 case 23 => 22 case 24 => 21 case 25 => 24 case 26 => 25 case 27 => 71
    case 28 => 14 case 29 => 24 case _ => -1
  }

  function CheckAt3x(i: int): int {
    match i
    case 30 => 25 case 31 => 17 case 32 => 17 case 33 => 5 case 34 => 20 case 35 => 20 case 36 => 4 case 37 => 25
    case 38 => 15 case 39 => 23 case _ => -1
  }

  function CheckAt4x(i: int): int {
    match i
    case 40 => 6 case 41 => 23 case 42 => 25 case 43 => 24 case 44 => 23 case 45 => 21 case 46 => 16 case 47 => 22
    case 48 => 11 case 49 => 13 case _ => -1
  }

  function CheckAt5x(i: int): int {
    match i
    case 50 => 9 case 51 => 25 case 52 => 25 case 53 => 0 case 54 => 25 case 55 => 9 case 56 => 23 case 57 => 18
    case 58 => 14 case 59 => 16 case _ => -1
  }

  function CheckAt6x(i: int): int {
    match i
    case 60 => 25 case 61 => 0 case 62 => 72 case 63 => 25 case 64 => 58 case 65 => 25 case 66 => 19 case 67 => 25
    case 68 => 19 case 69 => 67 case _ => -1
  }

  function CheckAt7x(i: int): int { match i case 70 => 25 case 71 => 67 case 74 => 26 case 77 => 46 case _ => -1 }

  /** yycheck */
  function CheckAt(i: int): int {
    if i < 40 then
      if i < 20 then
        if i < 10 then CheckAt0x(i) else CheckAt1x(i)
      else
        if i < 30 then CheckAt2x(i) else CheckAt3x(i)
    else
      if i < 60 then
        if i < 50 then CheckAt4x(i) else CheckAt5x(i)
      else
        if i < 70 then CheckAt6x(i) else CheckAt7x(i)
  }

  function R1At0x(i: int): int {
    match i
    case 1 => 27 case 2 => 26 case 3 => 28 case 4 => 28 case 5 => 29 case 6 => 30 case 7 => 30 case 8 => 31
    case 9 => 32 case _ => 0
  }

  function R1At1x(i: int): int {
    match i
    case 10 => 33 case 11 => 33 case 12 => 34 case 13 => 34 case 14 => 35 case 15 => 35 case 16 => 35 case 17 => 35
    case 18 => 36 case 19 => 36 case _ => 0
  }

  function R1At2x(i: int): int {
    match i
    case 20 => 37 case 21 => 37 case 22 => 38 case 23 => 38 case 24 => 39 case 25 => 39 case 26 => 40 case 27 => 40
    case 28 => 41 case 29 => 41 case _ => 0
  }

  function R1At3x(i: int): int {
    match i
    case 30 => 41 case 31 => 42 case 32 => 43 case 33 => 44 case 34 => 45 case 35 => 45 case 36 => 46 case 37 => 46
    case _ => 0
  }

  /** yyr1 */
  function R1At(i: int): int {
    if i < 20 then
      if i < 10 then R1At0x(i) else R1At1x(i)
    else
      if i < 30 then R1At2x(i) else R1At3x(i)
  }

  /** The lengths of the right-hand sides, yyr2; rule 0 is the augmented rule. */
  function LengthAt0x(i: int): int {
    match i
    case 0 => 2 case 2 => 4 case 3 => 5 case 4 => 7 case 5 => 3 case 6 => 1 case 7 => 2 case 8 => 3 case 9 => 3
    case _ => 0
  }

  function LengthAt1x(i: int): int {
    match i
    case 10 => 1 case 11 => 2 case 12 => 2 case 13 => 2 case 14 => 1 case 15 => 1 case 16 => 1 case 17 => 1
    case 18 => 5 case 19 => 5 case _ => 0
  }

  function LengthAt2x(i: int): int {
    match i
    case 20 => 1 case 21 => 1 case 22 => 1 case 23 => 3 case 25 => 1 case 26 => 1 case 27 => 2 case 28 => 1
    case 29 => 6 case _ => 0
  }

  function LengthAt3x(i: int): int {
    match i
    case 30 => 1 case 31 => 2 case 32 => 3 case 33 => 3 case 34 => 2 case 35 => 6 case 36 => 1 case 37 => 1
    case _ => 0
  }

  function LengthAt(i: int): int {
    if i < 20 then
      if i < 10 then LengthAt0x(i) else LengthAt1x(i)
    else
      if i < 30 then LengthAt2x(i) else LengthAt3x(i)
  }

  /** yyrhs, cut up by yyprhs. */
  function SymbolAt0x(r: int, k: int): int {
    match r
    case 0 => if k == 0 then 26 else 0
    case 2 => if k == 0 then 28 else if k == 1 then 27 else if k == 2 then 29 else 32
    case 3 => if k == 0 then 3 else if k == 1 then 23 else if k == 2 then 24 else if k == 3 then 4 else 23
    case 4 => if k == 0 then 28 else if k == 1 then 24 else if k == 2 then 21 else if k == 3 then 25
        else if k == 4 then 15 else if k == 5 then 25 else 16
    case 5 => if k == 0 then 5 else if k == 1 then 23 else 30
    case 6 => 31
    case 7 => if k == 0 then 31 else 30
    case 8 => if k == 0 then 24 else if k == 1 then 21 else 25
    case 9 => if k == 0 then 6 else if k == 1 then 23 else 33
    case _ => -1
  }

  /** yyrhs, cut up by yyprhs. */
  function SymbolAt1x(r: int, k: int): int {
    match r
    case 10 => 34
    case 11 => if k == 0 then 34 else 33
    case 12 => if k == 0 then 22 else 25
    case 13 => if k == 0 then 34 else 35
    case 14 => 36
    case 15 => 43
    case 16 => 44
    case 17 => 42
    case 18 => if k == 0 then 37 else if k == 1 then 25 else if k == 2 then 13 else if k == 3 then 38 else 14
    case 19 => if k == 0 then 37 else if k == 1 then 25 else if k == 2 then 13 else if k == 3 then 39 else 14
    case _ => -1
  }

  /** yyrhs, cut up by yyprhs. */
  function SymbolAt2x(r: int, k: int): int {
    match r
    case 20 => 7
    case 21 => 8
    case 22 => 39
    case 23 => if k == 0 then 39 else if k == 1 then 41 else 38
    case 25 => 40
    case 26 => 35
    case 27 => if k == 0 then 35 else 40
    case 28 => 17
    case 29 => if k == 0 then 17 else if k == 1 then 18 else if k == 2 then 25 else if k == 3 then 9
        else if k == 4 then 25 else 19
    case _ => -1
  }

  /** yyrhs, cut up by yyprhs. */
  function SymbolAt3x(r: int, k: int): int {
    match r
    case 30 => 20
    case 31 => if k == 0 then 24 else 25
    case 32 => if k == 0 then 10 else if k == 1 then 11 else 45
    case 33 => if k == 0 then 25 else if k == 1 then 23 else 46
    case 34 => if k == 0 then 12 else 46
    case 35 => if k == 0 then 15 else if k == 1 then 25 else if k == 2 then 9 else if k == 3 then 25
        else if k == 4 then 16 else 45
    case 36 => 35
    case 37 => 41
    case _ => -1
  }

  /** yyrhs, cut up by yyprhs. */
  function SymbolAt(r: int, k: int): int {
    if r < 20 then
      if r < 10 then SymbolAt0x(r, k) else SymbolAt1x(r, k)
    else
      if r < 30 then SymbolAt2x(r, k) else SymbolAt3x(r, k)
  }

  function RhsAt(r: int): seq<int> {
    if LengthAt(r) < 0 then [] else seq(LengthAt(r), k => SymbolAt(r, k))
  }

  const TABLES: Tables := Tables(
    seq(79, PactAt), seq(79, DefactAt), seq(21, PgotoAt), seq(21, DefgotoAt),
    seq(78, TableAt), seq(78, CheckAt), seq(38, R1At), seq(38, RhsAt), 26, 78)

  // ---- The certificate ----------------------------------------------------------------------

  /** The symbol each state is entered on. */
  function EntryAt0x(i: int): int {
    match i
    case 1 => 3 case 2 => 28 case 3 => 23 case 4 => 24 case 5 => 27 case 6 => 24 case 7 => 21 case 8 => 5 case 9 => 29
    case _ => -1
  }

  function EntryAt1x(i: int): int {
    match i
    case 10 => 4 case 11 => 25 case 12 => 23 case 13 => 6 case 14 => 32 case 15 => 23 case 16 => 15 case 17 => 24
    case 18 => 30 case 19 => 31 case _ => -1
  }

  function EntryAt2x(i: int): int {
    match i
    case 20 => 23 case 21 => 25 case 22 => 21 case 23 => 30 case 24 => 22 case 25 => 33 case 26 => 34 case 27 => 16
    case 28 => 25 case 29 => 25 case _ => -1
  }

  function EntryAt3x(i: int): int {
    match i
    case 30 => 7 case 31 => 8 case 32 => 10 case 33 => 24 case 34 => 25 case 35 => 33 case 36 => 35 case 37 => 36
    case 38 => 37 case 39 => 42 case _ => -1
  }

  function EntryAt4x(i: int): int {
    match i
    case 40 => 43 case 41 => 44 case 42 => 11 case 43 => 25 case 44 => 23 case 45 => 25 case 46 => 12 case 47 => 15
    case 48 => 45 case 49 => 17 case _ => -1
  }

  function EntryAt5x(i: int): int {
    match i
    case 50 => 20 case 51 => 35 case 52 => 41 case 53 => 46 case 54 => 13 case 55 => 46 case 56 => 25 case 57 => 18
    case 58 => 35 case 59 => 38 case _ => -1
  }

  function EntryAt6x(i: int): int {
    match i
    case 60 => 39 case 61 => 40 case 62 => 9 case 63 => 25 case 64 => 40 case 65 => 14 case 66 => 14 case 67 => 41
    case 68 => 25 case 69 => 9 case _ => -1
  }

  function EntryAt7x(i: int): int {
    match i
    case 70 => 38 case 71 => 39 case 72 => 16 case 73 => 25 case 74 => 45 case 75 => 19 case 76 => 26 case 77 => 0
    case _ => -1
  }

  function EntryAt(i: int): int {
    if i < 40 then
      if i < 20 then
        if i < 10 then EntryAt0x(i) else EntryAt1x(i)
      else
        if i < 30 then EntryAt2x(i) else EntryAt3x(i)
    else
      if i < 60 then
        if i < 50 then EntryAt4x(i) else EntryAt5x(i)
      else
        if i < 70 then EntryAt6x(i) else EntryAt7x(i)
  }

  /** The dotted rules that hold in each state. */
  predicate ItemAt0x(s: int, r: int, k: int) {
    match s
    case 0 => (k == 0 && (r == 0 || 2 <= r <= 4))
    case 1 => (k == 1 && r == 3)
    case 2 => (k == 0 && r == 1) || (k == 1 && (r == 2 || r == 4))
    case 3 => (k == 2 && r == 3)
    case 4 => (k == 2 && r == 4)
    case 5 => (k == 0 && r == 5) || (k == 2 && r == 2)
    case 6 => (k == 3 && r == 3)
    case 7 => (k == 3 && r == 4)
    case 8 => (k == 1 && r == 5)
    case 9 => (k == 0 && r == 9) || (k == 3 && r == 2)
    case _ => false
  }

  predicate ItemAt1x(s: int, r: int, k: int) {
    match s
    case 10 => (k == 4 && r == 3)
    case 11 => (k == 4 && r == 4)
    case 12 => (k == 0 && 6 <= r <= 8) || (k == 2 && r == 5)
    case 13 => (k == 1 && r == 9)
    case 14 => (k == 4 && r == 2)
    case 15 => (k == 5 && r == 3)
    case 16 => (k == 5 && r == 4)
    case 17 => (k == 1 && r == 8)
    case 18 => (k == 3 && r == 5)
    case 19 => (k == 0 && 6 <= r <= 8) || (k == 1 && (r == 6 || r == 7))
    case _ => false
  }

  predicate ItemAt2x(s: int, r: int, k: int) {
    match s
    case 20 => (k == 0 && 10 <= r <= 13) || (k == 2 && r == 9)
    case 21 => (k == 6 && r == 4)
    case 22 => (k == 2 && r == 8)
    case 23 => (k == 2 && r == 7)
    case 24 => (k == 1 && r == 12)
    case 25 => (k == 3 && r == 9)
    case 26 => (k == 0 && (10 <= r <= 21 || 31 <= r <= 33)) || (k == 1 && (r == 10 || r == 11 || r == 13))
    case 27 => (k == 7 && r == 4)
    case 28 => (k == 3 && r == 8)
    case 29 => (k == 2 && r == 12)
    case _ => false
  }

  predicate ItemAt3x(s: int, r: int, k: int) {
    match s
    case 30 => (k == 1 && r == 20)
    case 31 => (k == 1 && r == 21)
    case 32 => (k == 1 && r == 32)
    case 33 => (k == 1 && r == 31)
    case 34 => (k == 1 && r == 33)
    case 35 => (k == 2 && r == 11)
    case 36 => (k == 2 && r == 13)
    case 37 => (k == 1 && r == 14)
    case 38 => (k == 1 && (r == 18 || r == 19))
    case 39 => (k == 1 && r == 17)
    case _ => false
  }

  predicate ItemAt4x(s: int, r: int, k: int) {
    match s
    case 40 => (k == 1 && r == 15)
    case 41 => (k == 1 && r == 16)
    case 42 => (k == 0 && (r == 34 || r == 35)) || (k == 2 && r == 32)
    case 43 => (k == 2 && r == 31)
    case 44 => (k == 0 && (14 <= r <= 21 || 28 <= r <= 33 || r == 36 || r == 37)) || (k == 2 && r == 33)
    case 45 => (k == 2 && (r == 18 || r == 19))
    case 46 => (k == 0 && (14 <= r <= 21 || 28 <= r <= 33 || r == 36 || r == 37)) || (k == 1 && r == 34)
    case 47 => (k == 1 && r == 35)
    case 48 => (k == 3 && r == 32)
    case 49 => (k == 1 && (r == 28 || r == 29))
    case _ => false
  }

  predicate ItemAt5x(s: int, r: int, k: int) {
    match s
    case 50 => (k == 1 && r == 30)
    case 51 => (k == 1 && r == 36)
    case 52 => (k == 1 && r == 37)
    case 53 => (k == 3 && r == 33)
    case 54 => (k == 0 && (14 <= r <= 21 || 23 <= r <= 27 || 31 <= r <= 33)) || (k == 3 && (r == 18 || r == 19))
    case 55 => (k == 2 && r == 34)
    case 56 => (k == 2 && r == 35)
    case 57 => (k == 2 && r == 29)
    case 58 => (k == 0 && (14 <= r <= 21 || r == 26 || r == 27 || 31 <= r <= 33)) || (k == 1 && (r == 26 || r == 27))
    case 59 => (k == 4 && r == 18)
    case _ => false
  }

  predicate ItemAt6x(s: int, r: int, k: int) {
    match s
    case 60 => (k == 0 && 28 <= r <= 30) || (k == 1 && r == 23) || (k == 4 && r == 19)
    case 61 => (k == 1 && r == 25)
    case 62 => (k == 3 && r == 35)
    case 63 => (k == 3 && r == 29)
    case 64 => (k == 2 && r == 27)
    case 65 => (k == 5 && r == 18)
    case 66 => (k == 5 && r == 19)
    case 67 => (k == 0 && (14 <= r <= 27 || 31 <= r <= 33)) || (k == 2 && r == 23)
    case 68 => (k == 4 && r == 35)
    case 69 => (k == 4 && r == 29)
    case _ => false
  }

  predicate ItemAt7x(s: int, r: int, k: int) {
    match s
    case 70 => (k == 3 && r == 23)
    case 71 => (k == 0 && 28 <= r <= 30) || (k == 1 && (r == 22 || r == 23))
    case 72 => (k == 0 && (r == 34 || r == 35)) || (k == 5 && r == 35)
    case 73 => (k == 5 && r == 29)
    case 74 => (k == 6 && r == 35)
    case 75 => (k == 6 && r == 29)
    case 76 => (k == 1 && r == 0)
    case 77 => (k == 2 && r == 0)
    case _ => false
  }

  predicate ItemAt(s: int, r: int, k: int) {
    if s < 40 then
      if s < 20 then
        if s < 10 then ItemAt0x(s, r, k) else ItemAt1x(s, r, k)
      else
        if s < 30 then ItemAt2x(s, r, k) else ItemAt3x(s, r, k)
    else
      if s < 60 then
        if s < 50 then ItemAt4x(s, r, k) else ItemAt5x(s, r, k)
      else
        if s < 70 then ItemAt6x(s, r, k) else ItemAt7x(s, r, k)
  }

  /** What must hold in state `p` for state `s` to be entered from it. */
  predicate Below0x(s: int, p: int) {
    match s
    case 1 => ItemAt(p, 3, 0)
    case 2 => ItemAt(p, 2, 0) && ItemAt(p, 4, 0)
    case 3 => ItemAt(p, 3, 1)
    case 4 => ItemAt(p, 4, 1)
    case 5 => ItemAt(p, 2, 1)
    case 6 => ItemAt(p, 3, 2)
    case 7 => ItemAt(p, 4, 2)
    case 8 => ItemAt(p, 5, 0)
    case 9 => ItemAt(p, 2, 2)
    case _ => false
  }

  predicate Below1x(s: int, p: int) {
    match s
    case 10 => ItemAt(p, 3, 3)
    case 11 => ItemAt(p, 4, 3)
    case 12 => ItemAt(p, 5, 1)
    case 13 => ItemAt(p, 9, 0)
    case 14 => ItemAt(p, 2, 3)
    case 15 => ItemAt(p, 3, 4)
    case 16 => ItemAt(p, 4, 4)
    case 17 => ItemAt(p, 8, 0)
    case 18 => ItemAt(p, 5, 2)
    case 19 => ItemAt(p, 6, 0) && ItemAt(p, 7, 0)
    case _ => false
  }

  predicate Below2x(s: int, p: int) {
    match s
    case 20 => ItemAt(p, 9, 1)
    case 21 => ItemAt(p, 4, 5)
    case 22 => ItemAt(p, 8, 1)
    case 23 => ItemAt(p, 7, 1)
    case 24 => ItemAt(p, 12, 0)
    case 25 => ItemAt(p, 9, 2)
    case 26 => ItemAt(p, 10, 0) && ItemAt(p, 11, 0) && ItemAt(p, 13, 0)
    case 27 => ItemAt(p, 4, 6)
    case 28 => ItemAt(p, 8, 2)
    case 29 => ItemAt(p, 12, 1)
    case _ => false
  }

  predicate Below3x(s: int, p: int) {
    match s
    case 30 => ItemAt(p, 20, 0)
    case 31 => ItemAt(p, 21, 0)
    case 32 => ItemAt(p, 32, 0)
    case 33 => ItemAt(p, 31, 0)
    case 34 => ItemAt(p, 33, 0)
    case 35 => ItemAt(p, 11, 1)
    case 36 => ItemAt(p, 13, 1)
    case 37 => ItemAt(p, 14, 0)
    case 38 => ItemAt(p, 18, 0) && ItemAt(p, 19, 0)
    case 39 => ItemAt(p, 17, 0)
    case _ => false
  }

  predicate Below4x(s: int, p: int) {
    match s
    case 40 => ItemAt(p, 15, 0)
    case 41 => ItemAt(p, 16, 0)
    case 42 => ItemAt(p, 32, 1)
    case 43 => ItemAt(p, 31, 1)
    case 44 => ItemAt(p, 33, 1)
    case 45 => ItemAt(p, 18, 1) && ItemAt(p, 19, 1)
    case 46 => ItemAt(p, 34, 0)
    case 47 => ItemAt(p, 35, 0)
    case 48 => ItemAt(p, 32, 2)
    case 49 => ItemAt(p, 28, 0) && ItemAt(p, 29, 0)
    case _ => false
  }

  predicate Below5x(s: int, p: int) {
    match s
    case 50 => ItemAt(p, 30, 0)
    case 51 => ItemAt(p, 36, 0)
    case 52 => ItemAt(p, 37, 0)
    case 53 => ItemAt(p, 33, 2)
    case 54 => ItemAt(p, 18, 2) && ItemAt(p, 19, 2)
    case 55 => ItemAt(p, 34, 1)
    case 56 => ItemAt(p, 35, 1)
    case 57 => ItemAt(p, 29, 1)
    case 58 => ItemAt(p, 26, 0) && ItemAt(p, 27, 0)
    case 59 => ItemAt(p, 18, 3)
    case _ => false
  }

  predicate Below6x(s: int, p: int) {
    match s
    case 60 => ItemAt(p, 19, 3) && ItemAt(p, 23, 0)
    case 61 => ItemAt(p, 25, 0)
    case 62 => ItemAt(p, 35, 2)
    case 63 => ItemAt(p, 29, 2)
    case 64 => ItemAt(p, 27, 1)
    case 65 => ItemAt(p, 18, 4)
    case 66 => ItemAt(p, 19, 4)
    case 67 => ItemAt(p, 23, 1)
    case 68 => ItemAt(p, 35, 3)
    case 69 => ItemAt(p, 29, 3)
    case _ => false
  }

  predicate Below7x(s: int, p: int) {
    match s
    case 70 => ItemAt(p, 23, 2)
    case 71 => ItemAt(p, 22, 0) && ItemAt(p, 23, 0)
    case 72 => ItemAt(p, 35, 4)
    case 73 => ItemAt(p, 29, 4)
    case 74 => ItemAt(p, 35, 5)
    case 75 => ItemAt(p, 29, 5)
    case 76 => ItemAt(p, 0, 0)
    case 77 => ItemAt(p, 0, 1)
    case _ => false
  }

  predicate Below(s: int, p: int) {
    if s < 40 then
      if s < 20 then
        if s < 10 then Below0x(s, p) else Below1x(s, p)
      else
        if s < 30 then Below2x(s, p) else Below3x(s, p)
    else
      if s < 60 then
        if s < 50 then Below4x(s, p) else Below5x(s, p)
      else
        if s < 70 then Below6x(s, p) else Below7x(s, p)
  }

  const CERT: Cert := Cert(ItemAt)

  // ---- The local check, unpacked ------------------------------------------------------------

  predicate KindAt(k: int) { 0 <= k < 26 || k == 47 }

  predicate HitAt(i: int, k: int) { 0 <= i < 78 && CheckAt(i) == k }

  /** An action as the tables write it: a state to shift to, a rule negated, or 0. */
  function ActionAt(s: int, k: int): int {
    if PactAt(s) != -32768 && HitAt(PactAt(s) + k, k) then TableAt(PactAt(s) + k) else -DefactAt(s)
  }

  function ErrorActionAt(s: int): int {
    if PactAt(s) != -32768 && HitAt(PactAt(s) + 1, 1) then TableAt(PactAt(s) + 1) else 0
  }

  function GotoAt(s: int, x: int): int {
    if HitAt(PgotoAt(x - 26) + s, s) then TableAt(PgotoAt(x - 26) + s) else DefgotoAt(x - 26)
  }

  predicate EnteredAt(p: int, x: int, n: int) {
    0 < n < 78 && EntryAt(n) == x && Below(n, p)
  }

  predicate ActionOkAt(s: int, k: int, n: int) {
    if n == 0 then true
    else if n < 0 then -n < 38 && ItemAt(s, -n, LengthAt(-n))
    else if n == 78 then k == 0 && ItemAt(s, 0, 2)
    else EnteredAt(s, k, n)
  }

  predicate ErrorOkAt(s: int, n: int) {
    n == 0 || EnteredAt(s, 1, n)
  }

  lemma Fits0(n: int, r: int, k: int)
    requires 0 <= n < 78 && ItemAt(n, r, k) == true
    ensures 0 <= r < 38 && 0 <= k <= LengthAt(r) && (1 <= k ==> SymbolAt(r, k - 1) == EntryAt(n))
  {
  }

  lemma Prefixes0(n: int, r: int, k: int, p: int)
    requires 0 <= n < 20 && 1 <= k && ItemAt(n, r, k) == true && Below(n, p) == true
    ensures ItemAt(p, r, k - 1) == true
  {
  }

  lemma Prefixes20(n: int, r: int, k: int, p: int)
    requires 20 <= n < 40 && 1 <= k && ItemAt(n, r, k) == true && Below(n, p) == true
    ensures ItemAt(p, r, k - 1) == true
  {
  }

  lemma Prefixes40(n: int, r: int, k: int, p: int)
    requires 40 <= n < 78 && 1 <= k && ItemAt(n, r, k) == true && Below(n, p) == true
    ensures ItemAt(p, r, k - 1) == true
  {
  }

  /** A state that does not look ahead reduces by a rule it has read whole. */
  lemma Reductions(s: int)
    requires 0 <= s < 78 && PactAt(s) == -32768
    ensures 0 < DefactAt(s) < 38 && ItemAt(s, DefactAt(s), LengthAt(DefactAt(s))) == true
  {
  }

  lemma Actions0(s: int, k: int)
    requires 0 <= s < 5 && PactAt(s) != -32768 && KindAt(k)
    ensures ActionOkAt(s, k, ActionAt(s, k)) == true
  {
  }

  lemma Actions5(s: int, k: int)
    requires 5 <= s < 10 && PactAt(s) != -32768 && KindAt(k)
    ensures ActionOkAt(s, k, ActionAt(s, k)) == true
  {
  }

  lemma Actions10(s: int, k: int)
    requires 10 <= s < 20 && PactAt(s) != -32768 && KindAt(k)
    ensures ActionOkAt(s, k, ActionAt(s, k)) == true
  {
  }

  lemma Actions20(s: int, k: int)
    requires 20 <= s < 27 && PactAt(s) != -32768 && KindAt(k)
    ensures ActionOkAt(s, k, ActionAt(s, k)) == true
  {
  }

  lemma Actions27(s: int, k: int)
    requires 27 <= s < 36 && PactAt(s) != -32768 && KindAt(k)
    ensures ActionOkAt(s, k, ActionAt(s, k)) == true
  {
  }

  lemma Actions36(s: int, k: int)
    requires 36 <= s < 45 && PactAt(s) != -32768 && KindAt(k)
    ensures ActionOkAt(s, k, ActionAt(s, k)) == true
  {
  }

  lemma Actions45(s: int, k: int)
    requires 45 <= s < 54 && PactAt(s) != -32768 && KindAt(k)
    ensures ActionOkAt(s, k, ActionAt(s, k)) == true
  {
  }

  lemma Actions54(s: int, k: int)
    requires 54 <= s < 62 && PactAt(s) != -32768 && KindAt(k)
    ensures ActionOkAt(s, k, ActionAt(s, k)) == true
  {
  }

  lemma Actions62(s: int, k: int)
    requires 62 <= s < 70 && PactAt(s) != -32768 && KindAt(k)
    ensures ActionOkAt(s, k, ActionAt(s, k)) == true
  {
  }

  lemma Actions70(s: int, k: int)
    requires 70 <= s < 78 && PactAt(s) != -32768 && KindAt(k)
    ensures ActionOkAt(s, k, ActionAt(s, k)) == true
  {
  }

  lemma Gotos0(s: int, r: int)
    requires 0 <= s < 20 && 1 <= r < 38 && ItemAt(s, r, 0) == true
    ensures EnteredAt(s, R1At(r), GotoAt(s, R1At(r))) == true
  {
  }

  lemma Gotos20(s: int, r: int)
    requires 20 <= s < 40 && 1 <= r < 38 && ItemAt(s, r, 0) == true
    ensures EnteredAt(s, R1At(r), GotoAt(s, R1At(r))) == true
  {
  }

  lemma Gotos40(s: int, r: int)
    requires 40 <= s < 50 && 1 <= r < 38 && ItemAt(s, r, 0) == true
    ensures EnteredAt(s, R1At(r), GotoAt(s, R1At(r))) == true
  {
  }

  lemma Gotos50(s: int, r: int)
    requires 50 <= s < 60 && 1 <= r < 38 && ItemAt(s, r, 0) == true
    ensures EnteredAt(s, R1At(r), GotoAt(s, R1At(r))) == true
  {
  }

  lemma Gotos60(s: int, r: int)
    requires 60 <= s < 70 && 1 <= r < 38 && ItemAt(s, r, 0) == true
    ensures EnteredAt(s, R1At(r), GotoAt(s, R1At(r))) == true
  {
  }

  lemma Gotos70(s: int, r: int)
    requires 70 <= s < 78 && 1 <= r < 38 && ItemAt(s, r, 0) == true
    ensures EnteredAt(s, R1At(r), GotoAt(s, R1At(r))) == true
  {
  }

  lemma Errors(s: int)
    requires 0 <= s < 78
    ensures ErrorOkAt(s, ErrorActionAt(s)) == true
  {
  }

  lemma Defaults(s: int)
    requires 0 <= s < 78
    ensures PactAt(s) == -32768 ==> DefactAt(s) > 0
    ensures ItemAt(s, 0, 0) ==> s == 0
    ensures EntryAt(s) == 0 ==> s == 77
  {
  }

  // ---- The packed tables pass the check -----------------------------------------------------

  lemma LookupIs(s: int, k: int)
    requires IsState(TABLES, s)
    ensures Lookup(TABLES, s, k) == Decode(TABLES, ActionAt(s, k))
    ensures ErrorLookup(TABLES, s) == Decode(TABLES, ErrorActionAt(s))
    ensures Default(TABLES, s) == (if DefactAt(s) == 0 then Error else Reduce(DefactAt(s)))
  {
  }

  lemma LengthsAre(r: int)
    ensures LengthAt(r) >= 0
  {
  }

  lemma StatesAre(s: int)
    ensures IsState(TABLES, s) <==> 0 <= s < 78
    ensures IsKind(TABLES, s) <==> KindAt(s)
  {
  }

  lemma RulesAre(r: int)
    ensures IsRule(TABLES, r) <==> 1 <= r < 38
    ensures 0 <= r < 38 ==> r < |TABLES.rhs| && |TABLES.rhs[r]| == LengthAt(r)
    ensures 1 <= r < 38 ==> r < |TABLES.r1| && TABLES.r1[r] == R1At(r)
  {
    LengthsAre(r);
  }

  lemma SymbolsAre(r: int, k: int)
    requires 0 <= r < 38 && 0 <= k < LengthAt(r)
    ensures r < |TABLES.rhs| && k < |TABLES.rhs[r]| && TABLES.rhs[r][k] == SymbolAt(r, k)
  {
  }

  lemma GotoIs(s: int, r: int)
    requires 0 <= s < 78 && 1 <= r < 38 && IsRule(TABLES, r)
    ensures Goto(TABLES, s, TABLES.r1[r]) == GotoAt(s, R1At(r))
  {
  }

  lemma ItemIs(s: int, r: int, k: int)
    ensures Item(CERT, s, r, k) == ItemAt(s, r, k)
  {
  }

  lemma ItemBelow(n: int, r: int, k: int, p: int)
    requires 0 < n < 78 && ItemAt(n, r, k) == true && 1 <= k && Below(n, p) == true
    ensures ItemAt(p, r, k - 1) == true
  {
    hide ItemAt, Below;
    if n < 20 {
      Prefixes0(n, r, k, p);
    } else if n < 40 {
      Prefixes20(n, r, k, p);
    } else {
      Prefixes40(n, r, k, p);
    }
  }

  /** Every dotted rule of a state ends its prefix in the symbol the state is entered on. */
  lemma PrefixesFit(n: int, r: int, k: int)
    requires 0 <= n < 78 && ItemAt(n, r, k) == true
    ensures 0 <= r < 38 && 0 <= k <= LengthAt(r) && (1 <= k ==> SymbolAt(r, k - 1) == EntryAt(n))
  {
    hide ItemAt, LengthAt, SymbolAt, EntryAt;
    Fits0(n, r, k);
  }

  lemma EnteredIs(p: int, x: int, n: int)
    requires EnteredAt(p, x, n) == true
    ensures 0 < n < 78 && Entered(TABLES, CERT, p, x, n)
  {
    hide ItemAt, Below, EntryAt, LengthAt, SymbolAt, IsState, Item;
    StatesAre(n);
    forall r, k | 1 <= k && Item(CERT, n, r, k)
      ensures 0 <= r < |TABLES.rhs| && k <= |TABLES.rhs[r]| && TABLES.rhs[r][k - 1] == x && Item(CERT, p, r, k - 1)
    {
      ItemIs(n, r, k);
      ItemIs(p, r, k - 1);
      PrefixesFit(n, r, k);
      RulesAre(r);
      SymbolsAre(r, k - 1);
      ItemBelow(n, r, k, p);
    }
  }

  lemma ActionsFit(s: int, k: int)
    requires 0 <= s < 78 && KindAt(k)
    ensures ActionOkAt(s, k, ActionAt(s, k)) == true
  {
    hide ItemAt, EnteredAt, PactAt, TableAt, CheckAt, DefactAt, LengthAt;
    if PactAt(s) == -32768 {
      Reductions(s);
    } else if s < 5 {
      Actions0(s, k);
    } else if s < 10 {
      Actions5(s, k);
    } else if s < 20 {
      Actions10(s, k);
    } else if s < 27 {
      Actions20(s, k);
    } else if s < 36 {
      Actions27(s, k);
    } else if s < 45 {
      Actions36(s, k);
    } else if s < 54 {
      Actions45(s, k);
    } else if s < 62 {
      Actions54(s, k);
    } else if s < 70 {
      Actions62(s, k);
    } else {
      Actions70(s, k);
    }
  }

  lemma GotosFit(s: int, r: int)
    requires 0 <= s < 78 && 1 <= r < 38 && ItemAt(s, r, 0) == true
    ensures EnteredAt(s, R1At(r), GotoAt(s, R1At(r))) == true
  {
    hide EnteredAt, GotoAt, R1At, ItemAt;
    if s < 20 {
      Gotos0(s, r);
    } else if s < 40 {
      Gotos20(s, r);
    } else if s < 50 {
      Gotos40(s, r);
    } else if s < 60 {
      Gotos50(s, r);
    } else if s < 70 {
      Gotos60(s, r);
    } else {
      Gotos70(s, r);
    }
  }

  lemma ActionsAre(s: int, k: int)
    requires IsState(TABLES, s) && IsKind(TABLES, k)
    ensures ActionOk(TABLES, CERT, s, k, Lookup(TABLES, s, k))
  {
    hide ActionAt, ErrorActionAt, EnteredAt, ItemAt, LengthAt, Entered, Lookup, ErrorLookup, Item, IsState, IsKind,
        IsRule;
    StatesAre(s);
    StatesAre(k);
    LookupIs(s, k);
    ActionsFit(s, k);
    var n := ActionAt(s, k);
    if n > 0 && n != 78 {
      EnteredIs(s, k, n);
    } else if n < 0 {
      RulesAre(-n);
      ItemIs(s, -n, LengthAt(-n));
    } else if n > 0 {
      ItemIs(s, 0, 2);
    }
  }

  lemma ErrorsAre(s: int)
    requires IsState(TABLES, s)
    ensures ErrorOk(TABLES, CERT, s, ErrorLookup(TABLES, s))
  {
    hide ActionAt, ErrorActionAt, EnteredAt, Entered, Lookup, ErrorLookup, IsState;
    StatesAre(s);
    LookupIs(s, 0);
    Errors(s);
    if ErrorActionAt(s) != 0 {
      EnteredIs(s, 1, ErrorActionAt(s));
    }
  }

  lemma GotosAre(s: int, r: int)
    requires IsState(TABLES, s) && IsRule(TABLES, r) && Item(CERT, s, r, 0)
    ensures Entered(TABLES, CERT, s, TABLES.r1[r], Goto(TABLES, s, TABLES.r1[r]))
  {
    hide EnteredAt, Entered, Goto, GotoAt, ItemAt, Item, R1At, IsState;
    StatesAre(s);
    RulesAre(r);
    ItemIs(s, r, 0);
    GotosFit(s, r);
    GotoIs(s, r);
    EnteredIs(s, R1At(r), GotoAt(s, R1At(r)));
  }

  lemma EndsAre(s: int)
    requires IsState(TABLES, s) && Lookup(TABLES, s, YYEOF).Shift? && IsState(TABLES, Lookup(TABLES, s, YYEOF).state)
    ensures var n := Lookup(TABLES, s, YYEOF).state;
            TABLES.pact[n] != YYFLAG && Lookup(TABLES, n, YYEOF) == Accept
  {
    hide ActionAt, ErrorActionAt, EnteredAt, Lookup, ErrorLookup, IsState, EntryAt, Below, ItemAt, LengthAt;
    StatesAre(s);
    LookupIs(s, 0);
    ActionsFit(s, 0);
    EntryIs(s, ActionAt(s, 0));
    LookupIs(77, 0);
    LastAccepts();
  }

  lemma EntryIs(s: int, n: int)
    requires EnteredAt(s, 0, n) == true
    ensures n == 77
  {
    hide Below;
    Defaults(n);
  }

  lemma LastAccepts()
    ensures PactAt(77) != -32768 && ActionAt(77, 0) == 78
    ensures TABLES.pact[77] == PactAt(77)
  {
  }

  lemma DefaultsAre(s: int)
    requires IsState(TABLES, s)
    ensures TABLES.pact[s] == YYFLAG ==> Default(TABLES, s).Reduce?
    ensures Item(CERT, s, 0, 0) ==> s == 0
  {
    hide ItemAt, Item;
    Defaults(s);
    ItemIs(s, 0, 0);
  }

  lemma BottomIs(r: int, k: int)
    ensures Item(CERT, 0, r, k) ==> k == 0
    ensures 0 < |TABLES.rhs| && |TABLES.rhs[0]| == 2
    ensures IsNonterminal(TABLES, TABLES.rhs[0][0]) && TABLES.rhs[0][1] == YYEOF
  {
  }

  /** The tables pass the local check. */
  lemma TablesValid()
    ensures Valid(TABLES, CERT)
  {
    hide Lookup, ErrorLookup, ActionOk, ErrorOk, Entered, Goto, Item, Default;
    forall s, k | IsState(TABLES, s) && IsKind(TABLES, k) ensures ActionOk(TABLES, CERT, s, k, Lookup(TABLES, s, k)) {
      ActionsAre(s, k);
    }
    forall s | IsState(TABLES, s)
      ensures ErrorOk(TABLES, CERT, s, ErrorLookup(TABLES, s))
      ensures TABLES.pact[s] == YYFLAG ==> Default(TABLES, s).Reduce?
      ensures Item(CERT, s, 0, 0) ==> s == 0
    {
      ErrorsAre(s);
      DefaultsAre(s);
    }
    forall s, r | IsState(TABLES, s) && IsRule(TABLES, r) && Item(CERT, s, r, 0)
      ensures Entered(TABLES, CERT, s, TABLES.r1[r], Goto(TABLES, s, TABLES.r1[r]))
    {
      GotosAre(s, r);
    }
    forall s | IsState(TABLES, s) && Lookup(TABLES, s, YYEOF).Shift? && IsState(TABLES, Lookup(TABLES, s, YYEOF).state)
      ensures var n := Lookup(TABLES, s, YYEOF).state;
              TABLES.pact[n] != YYFLAG && Lookup(TABLES, n, YYEOF) == Accept
    {
      EndsAre(s);
    }
    forall r, k ensures Item(CERT, 0, r, k) ==> k == 0 {
      BottomIs(r, k);
    }
    BottomIs(0, 0);
    StatesAre(0);
  }

  // ---- Reductions pay for themselves ------------------------------------------------------------

  function WeightAt0x(i: int): int { match i case 0 => 0 case 1 => 0 case _ => 3 }
  function WeightAt1x(i: int): int { match i case _ => 3 }
  function WeightAt2x(i: int): int { match i case 26 => 9 case 27 => -1 case 28 => 9 case 29 => 9 case _ => 3 }
  function WeightAt3x(i: int): int {
    match i
    case 30 => 7 case 31 => 8 case 32 => 9 case 33 => 4 case 34 => 5 case 35 => 4 case 36 => 8 case 37 => 2
    case 38 => -2 case 39 => -1 case _ => 3
  }

  function WeightAt4x(i: int): int {
    match i
    case 41 => 2 case 42 => 5 case 43 => 8 case 44 => 6 case 46 => 1 case _ => 3
  }

  /** The weight of each symbol. */
  function WeightAt(i: int): int {
    if i < 20 then
      if i < 10 then WeightAt0x(i) else WeightAt1x(i)
    else
      if i < 30 then
        WeightAt2x(i)
      else
        if i < 40 then WeightAt3x(i) else WeightAt4x(i)
  }

  const WEIGHTS: Weights := Weights(WeightAt, 3, 2)

  function PartAt(r: int, k: int): int {
    if k < LengthAt(r) then WeightAt(SymbolAt(r, k)) else 0
  }

  lemma SumIs(r: int, k: nat)
    requires k <= LengthAt(r)
    ensures Sum(WEIGHTS, RhsAt(r)[k..]) ==
            if k < LengthAt(r) then PartAt(r, k) + Sum(WEIGHTS, RhsAt(r)[k + 1..]) else 0
  {
    hide LengthAt, SymbolAt, WeightAt;
    if k < LengthAt(r) {
      assert RhsAt(r)[k..][0] == SymbolAt(r, k) && RhsAt(r)[k..][1..] == RhsAt(r)[k + 1..];
    }
  }

  lemma {:induction false} SumFrom(r: int, k: nat)
    requires k <= LengthAt(r) <= 7
    ensures Sum(WEIGHTS, RhsAt(r)[k..]) == (if k <= 0 then PartAt(r, 0) else 0) + (if k <= 1 then PartAt(r, 1)
        else 0) + (if k <= 2 then PartAt(r, 2) else 0) + (if k <= 3 then PartAt(r, 3) else 0) + (if k
        <= 4 then PartAt(r, 4) else 0) + (if k <= 5 then PartAt(r, 5) else 0) + (if k <= 6 then PartAt(r, 6) else 0)
    decreases 8 - k
  {
    hide LengthAt, SymbolAt, WeightAt, Sum;
    SumIs(r, k);
    if k < LengthAt(r) {
      SumFrom(r, k + 1);
    }
  }

  lemma Pays1(r: int)
    requires 1 <= r < 20
    ensures LengthAt(r) <= 7 && WeightAt(R1At(r)) + 1 <= PartAt(r, 0) + PartAt(r, 1) + PartAt(r, 2) + PartAt(r, 3)
        + PartAt(r, 4) + PartAt(r, 5) + PartAt(r, 6)
  {
  }

  lemma Pays20(r: int)
    requires 20 <= r < 38
    ensures LengthAt(r) <= 7 && WeightAt(R1At(r)) + 1 <= PartAt(r, 0) + PartAt(r, 1) + PartAt(r, 2) + PartAt(r, 3)
        + PartAt(r, 4) + PartAt(r, 5) + PartAt(r, 6)
  {
  }

  lemma RulesPay(r: int)
    requires 1 <= r < 38
    ensures LengthAt(r) <= 7 && WeightAt(R1At(r)) + 1 <= PartAt(r, 0) + PartAt(r, 1) + PartAt(r, 2) + PartAt(r, 3)
        + PartAt(r, 4) + PartAt(r, 5) + PartAt(r, 6)
  {
    hide LengthAt, WeightAt, R1At, PartAt;
    if r < 20 {
      Pays1(r);
    } else {
      Pays20(r);
    }
  }

  lemma WeightsBounded(x: int)
    ensures 0 <= WeightAt(x) + 2 && (KindAt(x) ==> WeightAt(x) <= 3) && WeightAt(0) == 0 == WeightAt(1)
  {
  }

  /** The grammar has no idle reductions: yyparse on these tables always returns. */
  lemma TablesWeighted()
    ensures Weighted(TABLES, WEIGHTS)
  {
    hide WeightAt, PartAt, R1At, LengthAt, KindAt, IsKind;
    forall x ensures 0 <= Weight(WEIGHTS, x) + WEIGHTS.debt && (IsKind(TABLES, x)
        ==> Weight(WEIGHTS, x) <= WEIGHTS.token) {
      WeightsBounded(x);
      StatesAre(x);
    }
    WeightsBounded(0);
    forall r | IsRule(TABLES, r) ensures Weight(WEIGHTS, TABLES.r1[r]) + 1 <= Sum(WEIGHTS, TABLES.rhs[r]) {
      RulesAre(r);
      RulesPay(r);
      SumFrom(r, 0);
      assert TABLES.rhs[r] == RhsAt(r)[0..];
    }
  }
}
