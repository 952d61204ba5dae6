/** The tables of the specializer-directive parser, src/analyzer/direc-tab.cc, and the proof that
    they pass the local check. Its grammar uses the `error` token, in rule 11. */
module DirecTables {
  import opened LrTables
  import opened LrTermination

  // ---- The tables, in rows of ten -----------------------------------------------------------

  function PactAt0x(i: int): int {
    match i
    case 1 => 60 case 3 => -34 case 4 => -29 case 5 => -23 case 6 => -15 case 7 => -8 case _ => -32768
  }

  function PactAt1x(i: int): int {
    match i
    case 10 => 7 case 11 => 15 case 17 => -13 case 18 => -7 case 19 => -3 case _ => -32768
  }

  function PactAt2x(i: int): int {
    match i
    case 20 => 3 case 21 => 1 case 22 => 14 case 25 => 13 case 26 => 97 case 28 => 5 case _ => -32768
  }

  function PactAt3x(i: int): int {
    match i
    case 30 => 20 case 32 => 2 case 33 => -17 case 34 => 42 case 35 => 43 case 37 => 44 case 38 => 57 case 39 => 100
    case _ => -32768
  }

  function PactAt4x(i: int): int { match i case 40 => 100 case 44 => 48 case _ => -32768 }
  function PactAt5x(i: int): int {
    match i
    case 50 => 100 case 51 => 100 case 54 => 56 case 55 => 53 case 58 => 44 case 59 => 54 case _ => -32768
  }

  function PactAt6x(i: int): int { match i case 60 => 55 case 67 => -10 case _ => -32768 }
  function PactAt7x(i: int): int { match i case 71 => 8 case 74 => 100 case 76 => 58 case 79 => 100 case _ => -32768 }
  function PactAt8x(i: int): int {
    match i
    case 80 => 100 case 81 => 63 case 85 => 100 case 86 => 49 case 88 => 77 case _ => -32768
  }

  function PactAt9x(i: int): int { match i case 90 => 75 case 94 => 76 case 99 => 100 case _ => -32768 }
  function PactAt10x(i: int): int {
    match i
    case 100 => 82 case 101 => 86 case 102 => 103 case 103 => 38 case 105 => 0 case 107 => 70 case 109 => 94
    case _ => -32768
  }

  function PactAt11x(i: int): int { match i case 114 => 88 case 115 => 89 case 117 => 104 case _ => -32768 }
  function PactAt12x(i: int): int {
    match i
    case 120 => 0 case 121 => 98 case 124 => 133 case 125 => 135 case _ => -32768
  }

  /** yypact */
  function PactAt(i: int): int {
    if i < 60 then
      if i < 30 then
        if i < 10 then
          PactAt0x(i)
        else
          if i < 20 then PactAt1x(i) else PactAt2x(i)
      else
        if i < 40 then
          PactAt3x(i)
        else
          if i < 50 then PactAt4x(i) else PactAt5x(i)
    else
      if i < 90 then
        if i < 70 then
          PactAt6x(i)
        else
          if i < 80 then PactAt7x(i) else PactAt8x(i)
      else
        if i < 110 then
          if i < 100 then PactAt9x(i) else PactAt10x(i)
        else
          if i < 120 then PactAt11x(i) else PactAt12x(i)
  }

  function DefactAt0x(i: int): int { match i case 0 => 1 case 2 => 11 case 8 => 33 case 9 => 34 case _ => 0 }
  function DefactAt1x(i: int): int {
    match i
    case 12 => 35 case 13 => 29 case 14 => 30 case 15 => 31 case 16 => 32 case _ => 0
  }

  function DefactAt2x(i: int): int {
    match i
    case 23 => 10 case 24 => 2 case 25 => 3 case 27 => 6 case 28 => 14 case 29 => 78 case _ => 0
  }

  function DefactAt3x(i: int): int {
    match i
    case 30 => 18 case 31 => 78 case 32 => 28 case 34 => 41 case 35 => 40 case 36 => 42 case 37 => 5 case 38 => 59
    case 39 => 64 case _ => 0
  }

  function DefactAt4x(i: int): int {
    match i
    case 40 => 67 case 41 => 16 case 42 => 20 case 43 => 78 case 45 => 78 case 46 => 36 case 47 => 37 case 48 => 38
    case 49 => 39 case _ => 0
  }

  function DefactAt5x(i: int): int { match i case 52 => 78 case 53 => 78 case 56 => 9 case 57 => 7 case _ => 0 }
  function DefactAt6x(i: int): int {
    match i
    case 61 => 74 case 62 => 75 case 63 => 76 case 64 => 77 case 65 => 73 case 66 => 26 case 67 => 23 case 68 => 44
    case 69 => 43 case _ => 0
  }

  function DefactAt7x(i: int): int {
    match i
    case 70 => 27 case 72 => 66 case 73 => 69 case 75 => 62 case 77 => 65 case 78 => 68 case _ => 0
  }

  function DefactAt8x(i: int): int {
    match i
    case 82 => 13 case 83 => 15 case 84 => 19 case 87 => 57 case 89 => 58 case _ => 0
  }

  function DefactAt9x(i: int): int {
    match i
    case 91 => 63 case 92 => 46 case 93 => 78 case 94 => 72 case 95 => 12 case 96 => 24 case 97 => 25 case 98 => 60
    case _ => 0
  }

  function DefactAt10x(i: int): int { match i case 104 => 45 case 105 => 48 case 106 => 71 case 108 => 56 case _ => 0 }
  function DefactAt11x(i: int): int {
    match i
    case 110 => 53 case 111 => 54 case 112 => 55 case 113 => 52 case 115 => 49 case 116 => 50 case 118 => 61
    case 119 => 47 case _ => 0
  }

  function DefactAt12x(i: int): int { match i case 122 => 51 case 123 => 70 case _ => 0 }

  /** yydefact */
  function DefactAt(i: int): int {
    if i < 60 then
      if i < 30 then
        if i < 10 then
          DefactAt0x(i)
        else
          if i < 20 then DefactAt1x(i) else DefactAt2x(i)
      else
        if i < 40 then
          DefactAt3x(i)
        else
          if i < 50 then DefactAt4x(i) else DefactAt5x(i)
    else
      if i < 90 then
        if i < 70 then
          DefactAt6x(i)
        else
          if i < 80 then DefactAt7x(i) else DefactAt8x(i)
      else
        if i < 110 then
          if i < 100 then DefactAt9x(i) else DefactAt10x(i)
        else
          if i < 120 then DefactAt11x(i) else DefactAt12x(i)
  }

  function PgotoAt0x(i: int): int { match i case 5 => 112 case _ => -32768 }
  function PgotoAt1x(i: int): int {
    match i
    case 12 => 105 case 13 => 107 case 15 => 113 case 17 => 45 case _ => -32768
  }

  function PgotoAt2x(i: int): int { match i case 20 => 22 case 25 => -32 case 26 => -31 case _ => -32768 }

  /** yypgoto */
  function PgotoAt(i: int): int {
    if i < 10 then
      PgotoAt0x(i)
    else
      if i < 20 then PgotoAt1x(i) else PgotoAt2x(i)
  }

  function DefgotoAt0x(i: int): int {
    match i
    case 0 => 124 case 1 => 1 case 2 => 24 case 3 => 25 case 4 => 26 case 5 => 27 case 6 => 28 case 7 => 29
    case 8 => 30 case 9 => 31 case _ => -1
  }

  function DefgotoAt1x(i: int): int {
    match i
    case 10 => 32 case 11 => 33 case 12 => 34 case 13 => 35 case 14 => 36 case 15 => 37 case 16 => 38 case 17 => 92
    case 18 => 114 case 19 => 115 case _ => -1
  }

  function DefgotoAt2x(i: int): int {
    match i
    case 20 => 116 case 21 => 103 case 22 => 39 case 23 => 40 case 24 => 102 case 25 => 93 case 26 => 59 case _ => -1
  }

  /** yydefgoto */
  function DefgotoAt(i: int): int {
    if i < 10 then
      DefgotoAt0x(i)
    else
      if i < 20 then DefgotoAt1x(i) else DefgotoAt2x(i)
  }

  function TableAt0x(i: int): int {
    match i
    case 0 => 60 case 1 => 67 case 2 => -22 case 3 => 61 case 4 => 62 case 5 => 49 case 6 => 41 case 7 => 72
    case 8 => 73 case 9 => 63 case _ => 0
  }

  function TableAt1x(i: int): int {
    match i
    case 10 => 64 case 11 => 42 case 12 => 74 case 13 => 85 case 14 => 76 case 15 => 46 case 16 => 47 case 17 => 43
    case 18 => 77 case 19 => 78 case _ => 0
  }

  function TableAt2x(i: int): int {
    match i
    case 20 => 65 case 21 => 79 case 22 => 80 case 23 => 48 case 24 => 110 case 25 => 44 case 26 => 66 case 27 => 50
    case 28 => 61 case 29 => 62 case _ => 0
  }

  function TableAt3x(i: int): int {
    match i
    case 30 => 54 case 31 => 86 case 32 => 45 case 33 => 51 case 34 => 63 case 35 => 64 case 36 => 111 case 37 => 52
    case 38 => 112 case 39 => 89 case _ => 0
  }

  function TableAt4x(i: int): int {
    match i
    case 40 => -17 case 41 => -22 case 42 => 90 case 43 => 53 case 44 => 113 case 45 => 65 case 46 => 87 case 47 => 55
    case 48 => 94 case 49 => 88 case _ => 0
  }

  function TableAt5x(i: int): int {
    match i
    case 50 => 8 case 51 => 9 case 52 => 56 case 53 => 96 case 54 => 12 case 55 => -21 case 56 => 13 case 57 => 14
    case 58 => 15 case 59 => 16 case _ => 0
  }

  function TableAt6x(i: int): int {
    match i
    case 60 => -4 case 61 => 2 case 62 => 100 case 63 => 3 case 64 => 4 case 65 => 5 case 66 => 6 case 67 => 7
    case 68 => 8 case 69 => 9 case _ => 0
  }

  function TableAt7x(i: int): int {
    match i
    case 70 => 10 case 71 => 11 case 72 => 12 case 73 => 13 case 74 => 14 case 75 => 15 case 76 => 16 case 77 => 17
    case 78 => 71 case 79 => 18 case _ => 0
  }

  function TableAt8x(i: int): int {
    match i
    case 80 => 108 case 81 => 109 case 82 => 19 case 83 => 75 case 84 => 70 case 85 => 20 case 86 => 81 case 87 => 82
    case 88 => 21 case 89 => 83 case _ => 0
  }

  function TableAt9x(i: int): int {
    match i
    case 90 => 84 case 91 => 97 case 92 => 22 case 93 => 91 case 94 => 95 case 95 => 99 case 96 => 117 case 97 => -8
    case 98 => 2 case 99 => 23 case _ => 0
  }

  function TableAt10x(i: int): int {
    match i
    case 100 => 3 case 101 => 4 case 102 => 5 case 103 => 6 case 104 => 7 case 105 => 8 case 106 => 9 case 107 => 10
    case 108 => 11 case 109 => 12 case _ => 0
  }

  function TableAt11x(i: int): int {
    match i
    case 110 => 13 case 111 => 14 case 112 => 15 case 113 => 16 case 114 => 17 case 115 => 98 case 116 => 18
    case 117 => 101 case 118 => 118 case 119 => 19 case _ => 0
  }

  function TableAt12x(i: int): int {
    match i
    case 120 => 61 case 121 => 62 case 122 => 20 case 123 => 105 case 124 => 107 case 125 => 21 case 126 => 63
    case 127 => 64 case 128 => 106 case 129 => 22 case _ => 0
  }

  function TableAt13x(i: int): int {
    match i
    case 130 => 119 case 131 => 121 case 132 => 120 case 133 => 125 case 134 => 123 case 135 => 126 case 136 => -8
    case 137 => 65 case 138 => 57 case 139 => 58 case _ => 0
  }

  function TableAt14x(i: int): int { match i case 140 => 69 case 141 => 68 case 142 => 122 case 144 => 104 case _ => 0 }

  /** yytable */
  function TableAt(i: int): int {
    if i < 70 then
      if i < 30 then
        if i < 10 then
          TableAt0x(i)
        else
          if i < 20 then TableAt1x(i) else TableAt2x(i)
      else
        if i < 50 then
          if i < 40 then TableAt3x(i) else TableAt4x(i)
        else
          if i < 60 then TableAt5x(i) else TableAt6x(i)
    else
      if i < 110 then
        if i < 90 then
          if i < 80 then TableAt7x(i) else TableAt8x(i)
        else
          if i < 100 then TableAt9x(i) else TableAt10x(i)
      else
        if i < 130 then
          if i < 120 then TableAt11x(i) else TableAt12x(i)
        else
          if i < 140 then TableAt13x(i) else TableAt14x(i)
  }

  function CheckAt0x(i: int): int {
    match i
    case 0 => 31 case 1 => 33 case 2 => 0 case 3 => 20 case 4 => 21 case 5 => 18 case 6 => 40 case 7 => 39
    case 8 => 40 case 9 => 26 case _ => -1
  }

  function CheckAt1x(i: int): int {
    match i
    case 10 => 27 case 11 => 40 case 12 => 43 case 13 => 23 case 14 => 45 case 15 => 8 case 16 => 9 case 17 => 40
    case 18 => 50 case 19 => 51 case _ => -1
  }

  function CheckAt2x(i: int): int {
    match i
    case 20 => 37 case 21 => 52 case 22 => 53 case 23 => 8 case 24 => 24 case 25 => 40 case 26 => 43 case 27 => 40
    case 28 => 20 case 29 => 21 case _ => -1
  }

  function CheckAt3x(i: int): int {
    match i
    case 30 => 29 case 31 => 41 case 32 => 40 case 33 => 40 case 34 => 26 case 35 => 27 case 36 => 36 case 37 => 40
    case 38 => 38 case 39 => 71 case _ => -1
  }

  function CheckAt4x(i: int): int {
    match i
    case 40 => 35 case 41 => 39 case 42 => 74 case 43 => 40 case 44 => 44 case 45 => 37 case 46 => 38 case 47 => 33
    case 48 => 80 case 49 => 41 case _ => -1
  }

  function CheckAt5x(i: int): int {
    match i
    case 50 => 8 case 51 => 9 case 52 => 39 case 53 => 85 case 54 => 12 case 55 => 35 case 56 => 13 case 57 => 14
    case 58 => 15 case 59 => 16 case _ => -1
  }

  function CheckAt6x(i: int): int {
    match i
    case 60 => 0 case 61 => 1 case 62 => 93 case 63 => 3 case 64 => 4 case 65 => 5 case 66 => 6 case 67 => 7
    case 68 => 8 case 69 => 9 case _ => -1
  }

  function CheckAt7x(i: int): int {
    match i
    case 70 => 10 case 71 => 11 case 72 => 12 case 73 => 13 case 74 => 14 case 75 => 15 case 76 => 16 case 77 => 17
    case 78 => 21 case 79 => 19 case _ => -1
  }

  function CheckAt8x(i: int): int {
    match i
    case 80 => 42 case 81 => 43 case 82 => 22 case 83 => 35 case 84 => 40 case 85 => 25 case 86 => 30 case 87 => 34
    case 88 => 28 case 89 => 35 case _ => -1
  }

  function CheckAt9x(i: int): int {
    match i
    case 90 => 35 case 91 => 42 case 92 => 32 case 93 => 35 case 94 => 31 case 95 => 20 case 96 => 26 case 97 => 0
    case 98 => 1 case 99 => 39 case _ => -1
  }

  function CheckAt10x(i: int): int {
    match i
    case 100 => 3 case 101 => 4 case 102 => 5 case 103 => 6 case 104 => 7 case 105 => 8 case 106 => 9 case 107 => 10
    case 108 => 11 case 109 => 12 case _ => -1
  }

  function CheckAt11x(i: int): int {
    match i
    case 110 => 13 case 111 => 14 case 112 => 15 case 113 => 16 case 114 => 17 case 115 => 38 case 116 => 19
    case 117 => 41 case 118 => 24 case 119 => 22 case _ => -1
  }

  function CheckAt12x(i: int): int {
    match i
    case 120 => 20 case 121 => 21 case 122 => 25 case 123 => 41 case 124 => 21 case 125 => 28 case 126 => 26
    case 127 => 27 case 128 => 42 case 129 => 32 case _ => -1
  }

  function CheckAt13x(i: int): int {
    match i
    case 130 => 42 case 131 => 27 case 132 => 43 case 133 => 0 case 134 => 36 case 135 => 0 case 136 => 39
    case 137 => 37 case 138 => 26 case 139 => 26 case _ => -1
  }

  function CheckAt14x(i: int): int { match i case 140 => 35 case 141 => 34 case 142 => 120 case 144 => 99 case _ => -1 }

  /** yycheck */
  function CheckAt(i: int): int {
    if i < 70 then
      if i < 30 then
        if i < 10 then
          CheckAt0x(i)
        else
          if i < 20 then CheckAt1x(i) else CheckAt2x(i)
      else
        if i < 50 then
          if i < 40 then CheckAt3x(i) else CheckAt4x(i)
        else
          if i < 60 then CheckAt5x(i) else CheckAt6x(i)
    else
      if i < 110 then
        if i < 90 then
          if i < 80 then CheckAt7x(i) else CheckAt8x(i)
        else
          if i < 100 then CheckAt9x(i) else CheckAt10x(i)
      else
        if i < 130 then
          if i < 120 then CheckAt11x(i) else CheckAt12x(i)
        else
          if i < 140 then CheckAt13x(i) else CheckAt14x(i)
  }

  function R1At0x(i: int): int {
    match i
    case 1 => 46 case 2 => 45 case 3 => 47 case 4 => 47 case 5 => 47 case 6 => 48 case 7 => 48 case 8 => 48
    case 9 => 49 case _ => 0
  }

  function R1At1x(i: int): int {
    match i
    case 10 => 49 case 11 => 50 case 12 => 50 case 13 => 50 case 14 => 50 case 15 => 51 case 16 => 52 case 17 => 52
    case 18 => 50 case 19 => 53 case _ => 0
  }

  function R1At2x(i: int): int {
    match i
    case 20 => 54 case 21 => 54 case 22 => 50 case 23 => 55 case 24 => 55 case 25 => 55 case 26 => 55 case 27 => 56
    case 28 => 56 case 29 => 57 case _ => 0
  }

  function R1At3x(i: int): int {
    match i
    case 30 => 57 case 31 => 57 case 32 => 57 case 33 => 58 case 34 => 58 case 35 => 58 case 36 => 59 case 37 => 59
    case 38 => 59 case 39 => 59 case _ => 0
  }

  function R1At4x(i: int): int {
    match i
    case 40 => 60 case 41 => 60 case 42 => 60 case 43 => 60 case 44 => 60 case 45 => 61 case 46 => 61 case 47 => 62
    case 48 => 63 case 49 => 63 case _ => 0
  }

  function R1At5x(i: int): int {
    match i
    case 50 => 64 case 51 => 64 case 52 => 65 case 53 => 65 case 54 => 65 case 55 => 65 case 56 => 50 case 57 => 50
    case 58 => 50 case 59 => 50 case _ => 0
  }

  function R1At6x(i: int): int {
    match i
    case 60 => 66 case 61 => 66 case 62 => 50 case 63 => 50 case 64 => 50 case 65 => 67 case 66 => 67 case 67 => 50
    case 68 => 68 case 69 => 68 case _ => 0
  }

  function R1At7x(i: int): int {
    match i
    case 70 => 50 case 71 => 69 case 72 => 69 case 73 => 70 case 74 => 70 case 75 => 70 case 76 => 70 case 77 => 70
    case 78 => 71 case _ => 0
  }

  /** yyr1 */
  function R1At(i: int): int {
    if i < 40 then
      if i < 20 then
        if i < 10 then R1At0x(i) else R1At1x(i)
      else
        if i < 30 then R1At2x(i) else R1At3x(i)
    else
      if i < 60 then
        if i < 50 then R1At4x(i) else R1At5x(i)
      else
        if i < 70 then R1At6x(i) else R1At7x(i)
  }

  /** The lengths of the right-hand sides, yyr2; rule 0 is the augmented rule. */
  function LengthAt0x(i: int): int {
    match i
    case 0 => 2 case 2 => 2 case 3 => 1 case 5 => 1 case 6 => 1 case 7 => 2 case 8 => 1 case 9 => 2 case _ => 0
  }

  function LengthAt1x(i: int): int {
    match i
    case 10 => 1 case 11 => 1 case 12 => 4 case 13 => 3 case 14 => 1 case 15 => 3 case 16 => 2 case 17 => 1
    case 18 => 1 case 19 => 3 case _ => 0
  }

  function LengthAt2x(i: int): int {
    match i
    case 20 => 2 case 21 => 1 case 22 => 1 case 23 => 2 case 24 => 4 case 25 => 4 case 26 => 2 case 27 => 2
    case 28 => 1 case 29 => 1 case _ => 0
  }

  function LengthAt3x(i: int): int {
    match i
    case 30 => 1 case 31 => 1 case 32 => 1 case 33 => 1 case 34 => 1 case 35 => 1 case 36 => 2 case 37 => 2
    case 38 => 2 case 39 => 2 case _ => 0
  }

  function LengthAt4x(i: int): int {
    match i
    case 40 => 1 case 41 => 1 case 42 => 1 case 43 => 2 case 44 => 2 case 45 => 6 case 46 => 4 case 47 => 5
    case 49 => 1 case _ => 0
  }

  function LengthAt5x(i: int): int {
    match i
    case 50 => 1 case 51 => 3 case 52 => 1 case 53 => 1 case 54 => 1 case 55 => 1 case 56 => 6 case 57 => 3
    case 58 => 3 case 59 => 1 case _ => 0
  }

  function LengthAt6x(i: int): int {
    match i
    case 61 => 3 case 62 => 3 case 63 => 4 case 64 => 1 case 65 => 3 case 66 => 2 case 67 => 1 case 68 => 3
    case 69 => 2 case _ => 0
  }

  function LengthAt7x(i: int): int {
    match i
    case 70 => 9 case 71 => 2 case 73 => 1 case 74 => 1 case 75 => 1 case 76 => 1 case 77 => 1 case _ => 0
  }

  function LengthAt(i: int): int {
    if i < 40 then
      if i < 20 then
        if i < 10 then LengthAt0x(i) else LengthAt1x(i)
      else
        if i < 30 then LengthAt2x(i) else LengthAt3x(i)
    else
      if i < 60 then
        if i < 50 then LengthAt4x(i) else LengthAt5x(i)
      else
        if i < 70 then LengthAt6x(i) else LengthAt7x(i)
  }

  /** yyrhs, cut up by yyprhs. */
  function SymbolAt0x(r: int, k: int): int {
    match r
    case 0 => if k == 0 then 45 else 0
    case 2 => if k == 0 then 46 else 47
    case 3 => 48
    case 5 => 60
    case 6 => 50
    case 7 => if k == 0 then 49 else 50
    case 8 => 49
    case 9 => if k == 0 then 48 else 39
    case _ => -1
  }

  /** yyrhs, cut up by yyprhs. */
  function SymbolAt1x(r: int, k: int): int {
    match r
    case 10 => 39
    case 11 => 1
    case 12 => if k == 0 then 28 else if k == 1 then 29 else if k == 2 then 30 else 31
    case 13 => if k == 0 then 32 else if k == 1 then 33 else 34
    case 14 => 51
    case 15 => if k == 0 then 52 else if k == 1 then 71 else 35
    case 16 => if k == 0 then 3 else 40
    case 17 => 51
    case 18 => 53
    case 19 => if k == 0 then 54 else if k == 1 then 71 else 35
    case _ => -1
  }

  /** yyrhs, cut up by yyprhs. */
  function SymbolAt2x(r: int, k: int): int {
    match r
    case 20 => if k == 0 then 4 else 40
    case 21 => 53
    case 22 => 55
    case 23 => if k == 0 then 56 else 70
    case 24 => if k == 0 then 56 else if k == 1 then 70 else if k == 2 then 23 else 70
    case 25 => if k == 0 then 56 else if k == 1 then 70 else if k == 2 then 41 else 42
    case 26 => if k == 0 then 56 else 43
    case 27 => if k == 0 then 60 else 40
    case 28 => 55
    case 29 => 13
    case _ => -1
  }

  /** yyrhs, cut up by yyprhs. */
  function SymbolAt3x(r: int, k: int): int {
    match r
    case 30 => 14
    case 31 => 15
    case 32 => 16
    case 33 => 8
    case 34 => 9
    case 35 => 12
    case 36 => if k == 0 then 10 else 8
    case 37 => if k == 0 then 10 else 9
    case 38 => if k == 0 then 11 else 8
    case 39 => if k == 0 then 17 else 18
    case _ => -1
  }

  /** yyrhs, cut up by yyprhs. */
  function SymbolAt4x(r: int, k: int): int {
    match r
    case 40 => 58
    case 41 => 57
    case 42 => 59
    case 43 => if k == 0 then 58 else 57
    case 44 => if k == 0 then 57 else 58
    case 45 => if k == 0 then 5 else if k == 1 then 40 else if k == 2 then 71 else if k == 3 then 70
        else if k == 4 then 20 else 62
    case 46 => if k == 0 then 22 else if k == 1 then 40 else if k == 2 then 71 else 62
    case 47 => if k == 0 then 70 else if k == 1 then 71 else if k == 2 then 41 else if k == 3 then 63 else 42
    case 49 => 64
    case _ => -1
  }

  /** yyrhs, cut up by yyprhs. */
  function SymbolAt5x(r: int, k: int): int {
    match r
    case 50 => 65
    case 51 => if k == 0 then 64 else if k == 1 then 43 else 65
    case 52 => 44
    case 53 => 24
    case 54 => 36
    case 55 => 38
    case 56 => if k == 0 then 61 else if k == 1 then 21 else if k == 2 then 41 else if k == 3 then 38
        else if k == 4 then 66 else 42
    case 57 => if k == 0 then 61 else if k == 1 then 21 else 38
    case 58 => if k == 0 then 61 else if k == 1 then 21 else 70
    case 59 => 61
    case _ => -1
  }

  /** yyrhs, cut up by yyprhs. */
  function SymbolAt6x(r: int, k: int): int {
    match r
    case 61 => if k == 0 then 66 else if k == 1 then 43 else 24
    case 62 => if k == 0 then 6 else if k == 1 then 40 else 35
    case 63 => if k == 0 then 7 else if k == 1 then 40 else if k == 2 then 71 else 35
    case 64 => 67
    case 65 => if k == 0 then 17 else if k == 1 then 40 else 70
    case 66 => if k == 0 then 67 else 70
    case 67 => 68
    case 68 => if k == 0 then 19 else if k == 1 then 40 else 70
    case 69 => if k == 0 then 68 else 70
    case _ => -1
  }

  /** yyrhs, cut up by yyprhs. */
  function SymbolAt7x(r: int, k: int): int {
    match r
    case 70 => if k == 0 then 25 else if k == 1 then 40 else if k == 2 then 71 else if k == 3 then 70
        else if k == 4 then 69 else if k == 5 then 21 else if k == 6 then 26 else if k == 7 then 27 else 36
    case 71 => if k == 0 then 41 else 42
    case 73 => 37
    case 74 => 20
    case 75 => 21
    case 76 => 26
    case 77 => 27
    case _ => -1
  }

  /** yyrhs, cut up by yyprhs. */
  function SymbolAt(r: int, k: int): int {
    if r < 40 then
      if r < 20 then
        if r < 10 then SymbolAt0x(r, k) else SymbolAt1x(r, k)
      else
        if r < 30 then SymbolAt2x(r, k) else SymbolAt3x(r, k)
    else
      if r < 60 then
        if r < 50 then SymbolAt4x(r, k) else SymbolAt5x(r, k)
      else
        if r < 70 then SymbolAt6x(r, k) else SymbolAt7x(r, k)
  }

  function RhsAt(r: int): seq<int> {
    if LengthAt(r) < 0 then [] else seq(LengthAt(r), k => SymbolAt(r, k))
  }

  const TABLES: Tables := Tables(
    seq(127, PactAt), seq(127, DefactAt), seq(27, PgotoAt), seq(27, DefgotoAt),
    seq(145, TableAt), seq(145, CheckAt), seq(79, R1At), seq(79, RhsAt), 45, 126)

  // ---- The certificate ----------------------------------------------------------------------

  /** The symbol each state is entered on. */
  function EntryAt0x(i: int): int {
    match i
    case 1 => 46 case 2 => 1 case 3 => 3 case 4 => 4 case 5 => 5 case 6 => 6 case 7 => 7 case 8 => 8 case 9 => 9
    case _ => -1
  }

  function EntryAt1x(i: int): int {
    match i
    case 10 => 10 case 11 => 11 case 12 => 12 case 13 => 13 case 14 => 14 case 15 => 15 case 16 => 16 case 17 => 17
    case 18 => 19 case 19 => 22 case _ => -1
  }

  function EntryAt2x(i: int): int {
    match i
    case 20 => 25 case 21 => 28 case 22 => 32 case 23 => 39 case 24 => 47 case 25 => 48 case 26 => 49 case 27 => 50
    case 28 => 51 case 29 => 52 case _ => -1
  }

  function EntryAt3x(i: int): int {
    match i
    case 30 => 53 case 31 => 54 case 32 => 55 case 33 => 56 case 34 => 57 case 35 => 58 case 36 => 59 case 37 => 60
    case 38 => 61 case 39 => 67 case _ => -1
  }

  function EntryAt4x(i: int): int {
    match i
    case 40 => 68 case 41 => 40 case 42 => 40 case 43 => 40 case 44 => 40 case 45 => 40 case 46 => 8 case 47 => 9
    case 48 => 8 case 49 => 18 case _ => -1
  }

  function EntryAt5x(i: int): int {
    match i
    case 50 => 40 case 51 => 40 case 52 => 40 case 53 => 40 case 54 => 29 case 55 => 33 case 56 => 39 case 57 => 50
    case 58 => 60 case 59 => 71 case _ => -1
  }

  function EntryAt6x(i: int): int {
    match i
    case 60 => 71 case 61 => 20 case 62 => 21 case 63 => 26 case 64 => 27 case 65 => 37 case 66 => 43 case 67 => 70
    case 68 => 58 case 69 => 57 case _ => -1
  }

  function EntryAt7x(i: int): int {
    match i
    case 70 => 40 case 71 => 21 case 72 => 70 case 73 => 70 case 74 => 71 case 75 => 35 case 76 => 71 case 77 => 70
    case 78 => 70 case 79 => 71 case _ => -1
  }

  function EntryAt8x(i: int): int {
    match i
    case 80 => 71 case 81 => 30 case 82 => 34 case 83 => 35 case 84 => 35 case 85 => 23 case 86 => 41 case 87 => 38
    case 88 => 41 case 89 => 70 case _ => -1
  }

  function EntryAt9x(i: int): int {
    match i
    case 90 => 70 case 91 => 35 case 92 => 62 case 93 => 70 case 94 => 70 case 95 => 31 case 96 => 70 case 97 => 42
    case 98 => 38 case 99 => 20 case _ => -1
  }

  function EntryAt10x(i: int): int {
    match i
    case 100 => 71 case 101 => 41 case 102 => 69 case 103 => 66 case 104 => 62 case 105 => 41 case 106 => 42
    case 107 => 21 case 108 => 42 case 109 => 43 case _ => -1
  }

  function EntryAt11x(i: int): int {
    match i
    case 110 => 24 case 111 => 36 case 112 => 38 case 113 => 44 case 114 => 63 case 115 => 64 case 116 => 65
    case 117 => 26 case 118 => 24 case 119 => 42 case _ => -1
  }

  function EntryAt12x(i: int): int {
    match i
    case 120 => 43 case 121 => 27 case 122 => 65 case 123 => 36 case 124 => 45 case 125 => 0 case _ => -1
  }

  function EntryAt(i: int): int {
    if i < 60 then
      if i < 30 then
        if i < 10 then
          EntryAt0x(i)
        else
          if i < 20 then EntryAt1x(i) else EntryAt2x(i)
      else
        if i < 40 then
          EntryAt3x(i)
        else
          if i < 50 then EntryAt4x(i) else EntryAt5x(i)
    else
      if i < 90 then
        if i < 70 then
          EntryAt6x(i)
        else
          if i < 80 then EntryAt7x(i) else EntryAt8x(i)
      else
        if i < 110 then
          if i < 100 then EntryAt9x(i) else EntryAt10x(i)
        else
          if i < 120 then EntryAt11x(i) else EntryAt12x(i)
  }

  /** The dotted rules that hold in each state. */
  predicate ItemAt0x(s: int, r: int, k: int) {
    match s
    case 0 => (k == 0 && 0 <= r <= 2)
    case 1 => (k == 0 && (3 <= r <= 46 || 56 <= r <= 59 || 62 <= r <= 70)) || (k == 1 && r == 2)
    case 2 => (k == 1 && r == 11)
    case 3 => (k == 1 && r == 16)
    case 4 => (k == 1 && r == 20)
    case 5 => (k == 1 && r == 45)
    case 6 => (k == 1 && r == 62)
    case 7 => (k == 1 && r == 63)
    case 8 => (k == 1 && r == 33)
    case 9 => (k == 1 && r == 34)
    case _ => false
  }

  predicate ItemAt1x(s: int, r: int, k: int) {
    match s
    case 10 => (k == 1 && (r == 36 || r == 37))
    case 11 => (k == 1 && r == 38)
    case 12 => (k == 1 && r == 35)
    case 13 => (k == 1 && r == 29)
    case 14 => (k == 1 && r == 30)
    case 15 => (k == 1 && r == 31)
    case 16 => (k == 1 && r == 32)
    case 17 => (k == 1 && (r == 39 || r == 65))
    case 18 => (k == 1 && r == 68)
    case 19 => (k == 1 && r == 46)
    case _ => false
  }

  predicate ItemAt2x(s: int, r: int, k: int) {
    match s
    case 20 => (k == 1 && r == 70)
    case 21 => (k == 1 && r == 12)
    case 22 => (k == 1 && r == 13)
    case 23 => (k == 1 && r == 10)
    case 24 => (k == 2 && r == 2)
    case 25 => (k == 1 && (r == 3 || r == 9))
    case 26 => (k == 0 && (11 <= r <= 46 || 56 <= r <= 59 || 62 <= r <= 70)) || (k == 1 && (r == 7 || r == 8))
    case 27 => (k == 1 && r == 6)
    case 28 => (k == 1 && (r == 14 || r == 17))
    case 29 => (k == 0 && r == 78) || (k == 1 && r == 15)
    case _ => false
  }

  predicate ItemAt3x(s: int, r: int, k: int) {
    match s
    case 30 => (k == 1 && (r == 18 || r == 21))
    case 31 => (k == 0 && r == 78) || (k == 1 && r == 19)
    case 32 => (k == 1 && (r == 22 || r == 28))
    case 33 => (k == 0 && 73 <= r <= 77) || (k == 1 && 23 <= r <= 26)
    case 34 => (k == 0 && 33 <= r <= 35) || (k == 1 && (r == 41 || r == 44))
    case 35 => (k == 0 && 29 <= r <= 32) || (k == 1 && (r == 40 || r == 43))
    case 36 => (k == 1 && r == 42)
    case 37 => (k == 1 && (r == 5 || r == 27))
    case 38 => (k == 1 && 56 <= r <= 59)
    case 39 => (k == 0 && 73 <= r <= 77) || (k == 1 && (r == 64 || r == 66))
    case _ => false
  }

  predicate ItemAt4x(s: int, r: int, k: int) {
    match s
    case 40 => (k == 0 && 73 <= r <= 77) || (k == 1 && (r == 67 || r == 69))
    case 41 => (k == 2 && r == 16)
    case 42 => (k == 2 && r == 20)
    case 43 => (k == 0 && r == 78) || (k == 2 && r == 45)
    case 44 => (k == 2 && r == 62)
    case 45 => (k == 0 && r == 78) || (k == 2 && r == 63)
    case 46 => (k == 2 && r == 36)
    case 47 => (k == 2 && r == 37)
    case 48 => (k == 2 && r == 38)
    case 49 => (k == 2 && r == 39)
    case _ => false
  }

  predicate ItemAt5x(s: int, r: int, k: int) {
    match s
    case 50 => (k == 0 && 73 <= r <= 77) || (k == 2 && r == 65)
    case 51 => (k == 0 && 73 <= r <= 77) || (k == 2 && r == 68)
    case 52 => (k == 0 && r == 78) || (k == 2 && r == 46)
    case 53 => (k == 0 && r == 78) || (k == 2 && r == 70)
    case 54 => (k == 2 && r == 12)
    case 55 => (k == 2 && r == 13)
    case 56 => (k == 2 && r == 9)
    case 57 => (k == 2 && r == 7)
    case 58 => (k == 1 && r == 27)
    case 59 => (k == 2 && r == 15)
    case _ => false
  }

  predicate ItemAt6x(s: int, r: int, k: int) {
    match s
    case 60 => (k == 2 && r == 19)
    case 61 => (k == 1 && r == 74)
    case 62 => (k == 1 && r == 75)
    case 63 => (k == 1 && r == 76)
    case 64 => (k == 1 && r == 77)
    case 65 => (k == 1 && r == 73)
    case 66 => (k == 2 && r == 26)
    case 67 => (k == 2 && 23 <= r <= 25)
    case 68 => (k == 2 && r == 44)
    case 69 => (k == 2 && r == 43)
    case _ => false
  }

  predicate ItemAt7x(s: int, r: int, k: int) {
    match s
    case 70 => (k == 2 && r == 27)
    case 71 => (k == 0 && 73 <= r <= 77) || (k == 2 && 56 <= r <= 58)
    case 72 => (k == 2 && r == 66)
    case 73 => (k == 2 && r == 69)
    case 74 => (k == 0 && 73 <= r <= 77) || (k == 3 && r == 45)
    case 75 => (k == 3 && r == 62)
    case 76 => (k == 3 && r == 63)
    case 77 => (k == 3 && r == 65)
    case 78 => (k == 3 && r == 68)
    case 79 => (k == 0 && (r == 47 || 73 <= r <= 77)) || (k == 3 && r == 46)
    case _ => false
  }

  predicate ItemAt8x(s: int, r: int, k: int) {
    match s
    case 80 => (k == 0 && 73 <= r <= 77) || (k == 3 && r == 70)
    case 81 => (k == 3 && r == 12)
    case 82 => (k == 3 && r == 13)
    case 83 => (k == 3 && r == 15)
    case 84 => (k == 3 && r == 19)
    case 85 => (k == 0 && 73 <= r <= 77) || (k == 3 && r == 24)
    case 86 => (k == 3 && r == 25)
    case 87 => (k == 3 && r == 57)
    case 88 => (k == 3 && r == 56)
    case 89 => (k == 3 && r == 58)
    case _ => false
  }

  predicate ItemAt9x(s: int, r: int, k: int) {
    match s
    case 90 => (k == 4 && r == 45)
    case 91 => (k == 4 && r == 63)
    case 92 => (k == 4 && r == 46)
    case 93 => (k == 0 && r == 78) || (k == 1 && r == 47)
    case 94 => (k == 0 && (r == 71 || r == 72)) || (k == 4 && r == 70)
    case 95 => (k == 4 && r == 12)
    case 96 => (k == 4 && r == 24)
    case 97 => (k == 4 && r == 25)
    case 98 => (k == 0 && (r == 60 || r == 61)) || (k == 4 && r == 56)
    case 99 => (k == 0 && (r == 47 || 73 <= r <= 77)) || (k == 5 && r == 45)
    case _ => false
  }

  predicate ItemAt10x(s: int, r: int, k: int) {
    match s
    case 100 => (k == 2 && r == 47)
    case 101 => (k == 1 && r == 71)
    case 102 => (k == 5 && r == 70)
    case 103 => (k == 1 && r == 61) || (k == 5 && r == 56)
    case 104 => (k == 6 && r == 45)
    case 105 => (k == 0 && 48 <= r <= 55) || (k == 3 && r == 47)
    case 106 => (k == 2 && r == 71)
    case 107 => (k == 6 && r == 70)
    case 108 => (k == 6 && r == 56)
    case 109 => (k == 2 && r == 61)
    case _ => false
  }

  predicate ItemAt11x(s: int, r: int, k: int) {
    match s
    case 110 => (k == 1 && r == 53)
    case 111 => (k == 1 && r == 54)
    case 112 => (k == 1 && r == 55)
    case 113 => (k == 1 && r == 52)
    case 114 => (k == 4 && r == 47)
    case 115 => (k == 1 && (r == 49 || r == 51))
    case 116 => (k == 1 && r == 50)
    case 117 => (k == 7 && r == 70)
    case 118 => (k == 3 && r == 61)
    case 119 => (k == 5 && r == 47)
    case _ => false
  }

  predicate ItemAt12x(s: int, r: int, k: int) {
    match s
    case 120 => (k == 0 && 52 <= r <= 55) || (k == 2 && r == 51)
    case 121 => (k == 8 && r == 70)
    case 122 => (k == 3 && r == 51)
    case 123 => (k == 9 && r == 70)
    case 124 => (k == 1 && r == 0)
    case 125 => (k == 2 && r == 0)
    case _ => false
  }

  predicate ItemAt(s: int, r: int, k: int) {
    if s < 60 then
      if s < 30 then
        if s < 10 then
          ItemAt0x(s, r, k)
        else
          if s < 20 then ItemAt1x(s, r, k) else ItemAt2x(s, r, k)
      else
        if s < 40 then
          ItemAt3x(s, r, k)
        else
          if s < 50 then ItemAt4x(s, r, k) else ItemAt5x(s, r, k)
    else
      if s < 90 then
        if s < 70 then
          ItemAt6x(s, r, k)
        else
          if s < 80 then ItemAt7x(s, r, k) else ItemAt8x(s, r, k)
      else
        if s < 110 then
          if s < 100 then ItemAt9x(s, r, k) else ItemAt10x(s, r, k)
        else
          if s < 120 then ItemAt11x(s, r, k) else ItemAt12x(s, r, k)
  }

  /** What must hold in state `p` for state `s` to be entered from it. */
  predicate Below0x(s: int, p: int) {
    match s
    case 1 => ItemAt(p, 2, 0)
    case 2 => ItemAt(p, 11, 0)
    case 3 => ItemAt(p, 16, 0)
    case 4 => ItemAt(p, 20, 0)
    case 5 => ItemAt(p, 45, 0)
    case 6 => ItemAt(p, 62, 0)
    case 7 => ItemAt(p, 63, 0)
    case 8 => ItemAt(p, 33, 0)
    case 9 => ItemAt(p, 34, 0)
    case _ => false
  }

  predicate Below1x(s: int, p: int) {
    match s
    case 10 => ItemAt(p, 36, 0) && ItemAt(p, 37, 0)
    case 11 => ItemAt(p, 38, 0)
    case 12 => ItemAt(p, 35, 0)
    case 13 => ItemAt(p, 29, 0)
    case 14 => ItemAt(p, 30, 0)
    case 15 => ItemAt(p, 31, 0)
    case 16 => ItemAt(p, 32, 0)
    case 17 => ItemAt(p, 39, 0) && ItemAt(p, 65, 0)
    case 18 => ItemAt(p, 68, 0)
    case 19 => ItemAt(p, 46, 0)
    case _ => false
  }

  predicate Below2x(s: int, p: int) {
    match s
    case 20 => ItemAt(p, 70, 0)
    case 21 => ItemAt(p, 12, 0)
    case 22 => ItemAt(p, 13, 0)
    case 23 => ItemAt(p, 10, 0)
    case 24 => ItemAt(p, 2, 1)
    case 25 => ItemAt(p, 3, 0) && ItemAt(p, 9, 0)
    case 26 => ItemAt(p, 7, 0) && ItemAt(p, 8, 0)
    case 27 => ItemAt(p, 6, 0)
    case 28 => ItemAt(p, 14, 0) && ItemAt(p, 17, 0)
    case 29 => ItemAt(p, 15, 0)
    case _ => false
  }

  predicate Below3x(s: int, p: int) {
    match s
    case 30 => ItemAt(p, 18, 0) && ItemAt(p, 21, 0)
    case 31 => ItemAt(p, 19, 0)
    case 32 => ItemAt(p, 22, 0) && ItemAt(p, 28, 0)
    case 33 => ItemAt(p, 23, 0) && ItemAt(p, 24, 0) && ItemAt(p, 25, 0) && ItemAt(p, 26, 0)
    case 34 => ItemAt(p, 41, 0) && ItemAt(p, 44, 0)
    case 35 => ItemAt(p, 40, 0) && ItemAt(p, 43, 0)
    case 36 => ItemAt(p, 42, 0)
    case 37 => ItemAt(p, 5, 0) && ItemAt(p, 27, 0)
    case 38 => ItemAt(p, 56, 0) && ItemAt(p, 57, 0) && ItemAt(p, 58, 0) && ItemAt(p, 59, 0)
    case 39 => ItemAt(p, 64, 0) && ItemAt(p, 66, 0)
    case _ => false
  }

  predicate Below4x(s: int, p: int) {
    match s
    case 40 => ItemAt(p, 67, 0) && ItemAt(p, 69, 0)
    case 41 => ItemAt(p, 16, 1)
    case 42 => ItemAt(p, 20, 1)
    case 43 => ItemAt(p, 45, 1)
    case 44 => ItemAt(p, 62, 1)
    case 45 => ItemAt(p, 63, 1)
    case 46 => ItemAt(p, 36, 1)
    case 47 => ItemAt(p, 37, 1)
    case 48 => ItemAt(p, 38, 1)
    case 49 => ItemAt(p, 39, 1)
    case _ => false
  }

  predicate Below5x(s: int, p: int) {
    match s
    case 50 => ItemAt(p, 65, 1)
    case 51 => ItemAt(p, 68, 1)
    case 52 => ItemAt(p, 46, 1)
    case 53 => ItemAt(p, 70, 1)
    case 54 => ItemAt(p, 12, 1)
    case 55 => ItemAt(p, 13, 1)
    case 56 => ItemAt(p, 9, 1)
    case 57 => ItemAt(p, 7, 1)
    case 58 => ItemAt(p, 27, 0)
    case 59 => ItemAt(p, 15, 1)
    case _ => false
  }

  predicate Below6x(s: int, p: int) {
    match s
    case 60 => ItemAt(p, 19, 1)
    case 61 => ItemAt(p, 74, 0)
    case 62 => ItemAt(p, 75, 0)
    case 63 => ItemAt(p, 76, 0)
    case 64 => ItemAt(p, 77, 0)
    case 65 => ItemAt(p, 73, 0)
    case 66 => ItemAt(p, 26, 1)
    case 67 => ItemAt(p, 23, 1) && ItemAt(p, 24, 1) && ItemAt(p, 25, 1)
    case 68 => ItemAt(p, 44, 1)
    case 69 => ItemAt(p, 43, 1)
    case _ => false
  }

  predicate Below7x(s: int, p: int) {
    match s
    case 70 => ItemAt(p, 27, 1)
    case 71 => ItemAt(p, 56, 1) && ItemAt(p, 57, 1) && ItemAt(p, 58, 1)
    case 72 => ItemAt(p, 66, 1)
    case 73 => ItemAt(p, 69, 1)
    case 74 => ItemAt(p, 45, 2)
    case 75 => ItemAt(p, 62, 2)
    case 76 => ItemAt(p, 63, 2)
    case 77 => ItemAt(p, 65, 2)
    case 78 => ItemAt(p, 68, 2)
    case 79 => ItemAt(p, 46, 2)
    case _ => false
  }

  predicate Below8x(s: int, p: int) {
    match s
    case 80 => ItemAt(p, 70, 2)
    case 81 => ItemAt(p, 12, 2)
    case 82 => ItemAt(p, 13, 2)
    case 83 => ItemAt(p, 15, 2)
    case 84 => ItemAt(p, 19, 2)
    case 85 => ItemAt(p, 24, 2)
    case 86 => ItemAt(p, 25, 2)
    case 87 => ItemAt(p, 57, 2)
    case 88 => ItemAt(p, 56, 2)
    case 89 => ItemAt(p, 58, 2)
    case _ => false
  }

  predicate Below9x(s: int, p: int) {
    match s
    case 90 => ItemAt(p, 45, 3)
    case 91 => ItemAt(p, 63, 3)
    case 92 => ItemAt(p, 46, 3)
    case 93 => ItemAt(p, 47, 0)
    case 94 => ItemAt(p, 70, 3)
    case 95 => ItemAt(p, 12, 3)
    case 96 => ItemAt(p, 24, 3)
    case 97 => ItemAt(p, 25, 3)
    case 98 => ItemAt(p, 56, 3)
    case 99 => ItemAt(p, 45, 4)
    case _ => false
  }

  predicate Below10x(s: int, p: int) {
    match s
    case 100 => ItemAt(p, 47, 1)
    case 101 => ItemAt(p, 71, 0)
    case 102 => ItemAt(p, 70, 4)
    case 103 => ItemAt(p, 56, 4) && ItemAt(p, 61, 0)
    case 104 => ItemAt(p, 45, 5)
    case 105 => ItemAt(p, 47, 2)
    case 106 => ItemAt(p, 71, 1)
    case 107 => ItemAt(p, 70, 5)
    case 108 => ItemAt(p, 56, 5)
    case 109 => ItemAt(p, 61, 1)
    case _ => false
  }

  predicate Below11x(s: int, p: int) {
    match s
    case 110 => ItemAt(p, 53, 0)
    case 111 => ItemAt(p, 54, 0)
    case 112 => ItemAt(p, 55, 0)
    case 113 => ItemAt(p, 52, 0)
    case 114 => ItemAt(p, 47, 3)
    case 115 => ItemAt(p, 49, 0) && ItemAt(p, 51, 0)
    case 116 => ItemAt(p, 50, 0)
    case 117 => ItemAt(p, 70, 6)
    case 118 => ItemAt(p, 61, 2)
    case 119 => ItemAt(p, 47, 4)
    case _ => false
  }

  predicate Below12x(s: int, p: int) {
    match s
    case 120 => ItemAt(p, 51, 1)
    case 121 => ItemAt(p, 70, 7)
    case 122 => ItemAt(p, 51, 2)
    case 123 => ItemAt(p, 70, 8)
    case 124 => ItemAt(p, 0, 0)
    case 125 => ItemAt(p, 0, 1)
    case _ => false
  }

  predicate Below(s: int, p: int) {
    if s < 60 then
      if s < 30 then
        if s < 10 then
          Below0x(s, p)
        else
          if s < 20 then Below1x(s, p) else Below2x(s, p)
      else
        if s < 40 then
          Below3x(s, p)
        else
          if s < 50 then Below4x(s, p) else Below5x(s, p)
    else
      if s < 90 then
        if s < 70 then
          Below6x(s, p)
        else
          if s < 80 then Below7x(s, p) else Below8x(s, p)
      else
        if s < 110 then
          if s < 100 then Below9x(s, p) else Below10x(s, p)
        else
          if s < 120 then Below11x(s, p) else Below12x(s, p)
  }

  const CERT: Cert := Cert(ItemAt)

  // ---- The local check, unpacked ------------------------------------------------------------

  predicate KindAt(k: int) { 0 <= k < 45 || k == 72 }

  predicate HitAt(i: int, k: int) { 0 <= i < 145 && CheckAt(i) == k }

  /** An action as the tables write it: a state to shift to, a rule negated, or 0. */
  function ActionAt(s: int, k: int): int {
    if PactAt(s) != -32768 && HitAt(PactAt(s) + k, k) then TableAt(PactAt(s) + k) else -DefactAt(s)
  }

  function ErrorActionAt(s: int): int {
    if PactAt(s) != -32768 && HitAt(PactAt(s) + 1, 1) then TableAt(PactAt(s) + 1) else 0
  }

  function GotoAt(s: int, x: int): int {
    if HitAt(PgotoAt(x - 45) + s, s) then TableAt(PgotoAt(x - 45) + s) else DefgotoAt(x - 45)
  }

  predicate EnteredAt(p: int, x: int, n: int) {
    0 < n < 126 && EntryAt(n) == x && Below(n, p)
  }

  predicate ActionOkAt(s: int, k: int, n: int) {
    if n == 0 then true
    else if n < 0 then -n < 79 && ItemAt(s, -n, LengthAt(-n))
    else if n == 126 then k == 0 && ItemAt(s, 0, 2)
    else EnteredAt(s, k, n)
  }

  predicate ErrorOkAt(s: int, n: int) {
    n == 0 || EnteredAt(s, 1, n)
  }

  lemma Fits0(n: int, r: int, k: int)
    requires 0 <= n < 45 && ItemAt(n, r, k) == true
    ensures 0 <= r < 79 && 0 <= k <= LengthAt(r) && (1 <= k ==> SymbolAt(r, k - 1) == EntryAt(n))
  {
  }

  lemma Fits45(n: int, r: int, k: int)
    requires 45 <= n < 80 && ItemAt(n, r, k) == true
    ensures 0 <= r < 79 && 0 <= k <= LengthAt(r) && (1 <= k ==> SymbolAt(r, k - 1) == EntryAt(n))
  {
  }

  lemma Fits80(n: int, r: int, k: int)
    requires 80 <= n < 126 && ItemAt(n, r, k) == true
    ensures 0 <= r < 79 && 0 <= k <= LengthAt(r) && (1 <= k ==> SymbolAt(r, k - 1) == EntryAt(n))
  {
  }

  lemma Prefixes0(n: int, r: int, k: int, p: int)
    requires 0 <= n < 26 && 1 <= k && ItemAt(n, r, k) == true && Below(n, p) == true
    ensures ItemAt(p, r, k - 1) == true
  {
  }

  lemma Prefixes26(n: int, r: int, k: int, p: int)
    requires 26 <= n < 35 && 1 <= k && ItemAt(n, r, k) == true && Below(n, p) == true
    ensures ItemAt(p, r, k - 1) == true
  {
  }

  lemma Prefixes35(n: int, r: int, k: int, p: int)
    requires 35 <= n < 45 && 1 <= k && ItemAt(n, r, k) == true && Below(n, p) == true
    ensures ItemAt(p, r, k - 1) == true
  {
  }

  lemma Prefixes45(n: int, r: int, k: int, p: int)
    requires 45 <= n < 60 && 1 <= k && ItemAt(n, r, k) == true && Below(n, p) == true
    ensures ItemAt(p, r, k - 1) == true
  {
  }

  lemma Prefixes60(n: int, r: int, k: int, p: int)
    requires 60 <= n < 90 && 1 <= k && ItemAt(n, r, k) == true && Below(n, p) == true
    ensures ItemAt(p, r, k - 1) == true
  {
  }

  lemma Prefixes90(n: int, r: int, k: int, p: int)
    requires 90 <= n < 126 && 1 <= k && ItemAt(n, r, k) == true && Below(n, p) == true
    ensures ItemAt(p, r, k - 1) == true
  {
  }

  /** A state that does not look ahead reduces by a rule it has read whole. */
  lemma Reductions(s: int)
    requires 0 <= s < 126 && PactAt(s) == -32768
    ensures 0 < DefactAt(s) < 79 && ItemAt(s, DefactAt(s), LengthAt(DefactAt(s))) == true
  {
  }

  lemma Actions0(s: int, k: int)
    requires 0 <= s < 4 && PactAt(s) != -32768 && KindAt(k)
    ensures ActionOkAt(s, k, ActionAt(s, k)) == true
  {
  }

  lemma Actions4(s: int, k: int)
    requires 4 <= s < 6 && PactAt(s) != -32768 && KindAt(k)
    ensures ActionOkAt(s, k, ActionAt(s, k)) == true
  {
  }

  lemma Actions6(s: int, k: int)
    requires 6 <= s < 16 && PactAt(s) != -32768 && KindAt(k)
    ensures ActionOkAt(s, k, ActionAt(s, k)) == true
  {
  }

  lemma Actions16(s: int, k: int)
    requires 16 <= s < 21 && PactAt(s) != -32768 && KindAt(k)
    ensures ActionOkAt(s, k, ActionAt(s, k)) == true
  {
  }

  lemma Actions21(s: int, k: int)
    requires 21 <= s < 26 && PactAt(s) != -32768 && KindAt(k)
    ensures ActionOkAt(s, k, ActionAt(s, k)) == true
  {
  }

  lemma Actions26(s: int, k: int)
    requires 26 <= s < 27 && PactAt(s) != -32768 && KindAt(k)
    ensures ActionOkAt(s, k, ActionAt(s, k)) == true
  {
  }

  lemma Actions27(s: int, k: int)
    requires 27 <= s < 30 && PactAt(s) != -32768 && KindAt(k)
    ensures ActionOkAt(s, k, ActionAt(s, k)) == true
  {
  }

  lemma Actions30(s: int, k: int)
    requires 30 <= s < 33 && PactAt(s) != -32768 && KindAt(k)
    ensures ActionOkAt(s, k, ActionAt(s, k)) == true
  {
  }

  lemma Actions33(s: int, k: int)
    requires 33 <= s < 35 && PactAt(s) != -32768 && KindAt(k)
    ensures ActionOkAt(s, k, ActionAt(s, k)) == true
  {
  }

  lemma Actions35(s: int, k: int)
    requires 35 <= s < 36 && PactAt(s) != -32768 && KindAt(k)
    ensures ActionOkAt(s, k, ActionAt(s, k)) == true
  {
  }

  lemma Actions36(s: int, k: int)
    requires 36 <= s < 38 && PactAt(s) != -32768 && KindAt(k)
    ensures ActionOkAt(s, k, ActionAt(s, k)) == true
  {
  }

  lemma Actions38(s: int, k: int)
    requires 38 <= s < 40 && PactAt(s) != -32768 && KindAt(k)
    ensures ActionOkAt(s, k, ActionAt(s, k)) == true
  {
  }

  lemma Actions40(s: int, k: int)
    requires 40 <= s < 45 && PactAt(s) != -32768 && KindAt(k)
    ensures ActionOkAt(s, k, ActionAt(s, k)) == true
  {
  }

  lemma Actions45(s: int, k: int)
    requires 45 <= s < 55 && PactAt(s) != -32768 && KindAt(k)
    ensures ActionOkAt(s, k, ActionAt(s, k)) == true
  {
  }

  lemma Actions55(s: int, k: int)
    requires 55 <= s < 60 && PactAt(s) != -32768 && KindAt(k)
    ensures ActionOkAt(s, k, ActionAt(s, k)) == true
  {
  }

  lemma Actions60(s: int, k: int)
    requires 60 <= s < 67 && PactAt(s) != -32768 && KindAt(k)
    ensures ActionOkAt(s, k, ActionAt(s, k)) == true
  {
  }

  lemma Actions67(s: int, k: int)
    requires 67 <= s < 72 && PactAt(s) != -32768 && KindAt(k)
    ensures ActionOkAt(s, k, ActionAt(s, k)) == true
  {
  }

  lemma Actions72(s: int, k: int)
    requires 72 <= s < 75 && PactAt(s) != -32768 && KindAt(k)
    ensures ActionOkAt(s, k, ActionAt(s, k)) == true
  {
  }

  lemma Actions75(s: int, k: int)
    requires 75 <= s < 80 && PactAt(s) != -32768 && KindAt(k)
    ensures ActionOkAt(s, k, ActionAt(s, k)) == true
  {
  }

  lemma Actions80(s: int, k: int)
    requires 80 <= s < 85 && PactAt(s) != -32768 && KindAt(k)
    ensures ActionOkAt(s, k, ActionAt(s, k)) == true
  {
  }

  lemma Actions85(s: int, k: int)
    requires 85 <= s < 90 && PactAt(s) != -32768 && KindAt(k)
    ensures ActionOkAt(s, k, ActionAt(s, k)) == true
  {
  }

  lemma Actions90(s: int, k: int)
    requires 90 <= s < 97 && PactAt(s) != -32768 && KindAt(k)
    ensures ActionOkAt(s, k, ActionAt(s, k)) == true
  {
  }

  lemma Actions97(s: int, k: int)
    requires 97 <= s < 101 && PactAt(s) != -32768 && KindAt(k)
    ensures ActionOkAt(s, k, ActionAt(s, k)) == true
  {
  }

  lemma Actions101(s: int, k: int)
    requires 101 <= s < 103 && PactAt(s) != -32768 && KindAt(k)
    ensures ActionOkAt(s, k, ActionAt(s, k)) == true
  {
  }

  lemma Actions103(s: int, k: int)
    requires 103 <= s < 105 && PactAt(s) != -32768 && KindAt(k)
    ensures ActionOkAt(s, k, ActionAt(s, k)) == true
  {
  }

  lemma Actions105(s: int, k: int)
    requires 105 <= s < 107 && PactAt(s) != -32768 && KindAt(k)
    ensures ActionOkAt(s, k, ActionAt(s, k)) == true
  {
  }

  lemma Actions107(s: int, k: int)
    requires 107 <= s < 115 && PactAt(s) != -32768 && KindAt(k)
    ensures ActionOkAt(s, k, ActionAt(s, k)) == true
  {
  }

  lemma Actions115(s: int, k: int)
    requires 115 <= s < 121 && PactAt(s) != -32768 && KindAt(k)
    ensures ActionOkAt(s, k, ActionAt(s, k)) == true
  {
  }

  lemma Actions121(s: int, k: int)
    requires 121 <= s < 126 && PactAt(s) != -32768 && KindAt(k)
    ensures ActionOkAt(s, k, ActionAt(s, k)) == true
  {
  }

  lemma Gotos0(s: int, r: int)
    requires 0 <= s < 1 && 1 <= r < 79 && ItemAt(s, r, 0) == true
    ensures EnteredAt(s, R1At(r), GotoAt(s, R1At(r))) == true
  {
  }

  lemma Gotos1(s: int, r: int)
    requires 1 <= s < 26 && 1 <= r < 79 && ItemAt(s, r, 0) == true
    ensures EnteredAt(s, R1At(r), GotoAt(s, R1At(r))) == true
  {
  }

  lemma Gotos26(s: int, r: int)
    requires 26 <= s < 27 && 1 <= r < 79 && ItemAt(s, r, 0) == true
    ensures EnteredAt(s, R1At(r), GotoAt(s, R1At(r))) == true
  {
  }

  lemma Gotos27(s: int, r: int)
    requires 27 <= s < 45 && 1 <= r < 79 && ItemAt(s, r, 0) == true
    ensures EnteredAt(s, R1At(r), GotoAt(s, R1At(r))) == true
  {
  }

  lemma Gotos45(s: int, r: int)
    requires 45 <= s < 80 && 1 <= r < 79 && ItemAt(s, r, 0) == true
    ensures EnteredAt(s, R1At(r), GotoAt(s, R1At(r))) == true
  {
  }

  lemma Gotos80(s: int, r: int)
    requires 80 <= s < 99 && 1 <= r < 79 && ItemAt(s, r, 0) == true
    ensures EnteredAt(s, R1At(r), GotoAt(s, R1At(r))) == true
  {
  }

  lemma Gotos99(s: int, r: int)
    requires 99 <= s < 126 && 1 <= r < 79 && ItemAt(s, r, 0) == true
    ensures EnteredAt(s, R1At(r), GotoAt(s, R1At(r))) == true
  {
  }

  lemma Errors(s: int)
    requires 0 <= s < 126
    ensures ErrorOkAt(s, ErrorActionAt(s)) == true
  {
  }

  lemma Defaults(s: int)
    requires 0 <= s < 126
    ensures PactAt(s) == -32768 ==> DefactAt(s) > 0
    ensures ItemAt(s, 0, 0) ==> s == 0
    ensures EntryAt(s) == 0 ==> s == 125
  {
  }

  // ---- The packed tables pass the check -----------------------------------------------------

  lemma LookupIs(s: int, k: int)
    requires IsState(TABLES, s)
    ensures Lookup(TABLES, s, k) == Decode(TABLES, ActionAt(s, k))
    ensures ErrorLookup(TABLES, s) == Decode(TABLES, ErrorActionAt(s))
    ensures Default(TABLES, s) == (if DefactAt(s) == 0 then Error else Reduce(DefactAt(s)))
  {
  }

  lemma LengthsAre(r: int)
    ensures LengthAt(r) >= 0
  {
  }

  lemma StatesAre(s: int)
    ensures IsState(TABLES, s) <==> 0 <= s < 126
    ensures IsKind(TABLES, s) <==> KindAt(s)
  {
  }

  lemma RulesAre(r: int)
    ensures IsRule(TABLES, r) <==> 1 <= r < 79
    ensures 0 <= r < 79 ==> r < |TABLES.rhs| && |TABLES.rhs[r]| == LengthAt(r)
    ensures 1 <= r < 79 ==> r < |TABLES.r1| && TABLES.r1[r] == R1At(r)
  {
    LengthsAre(r);
  }

  lemma SymbolsAre(r: int, k: int)
    requires 0 <= r < 79 && 0 <= k < LengthAt(r)
    ensures r < |TABLES.rhs| && k < |TABLES.rhs[r]| && TABLES.rhs[r][k] == SymbolAt(r, k)
  {
  }

  lemma GotoIs(s: int, r: int)
    requires 0 <= s < 126 && 1 <= r < 79 && IsRule(TABLES, r)
    ensures Goto(TABLES, s, TABLES.r1[r]) == GotoAt(s, R1At(r))
  {
  }

  lemma ItemIs(s: int, r: int, k: int)
    ensures Item(CERT, s, r, k) == ItemAt(s, r, k)
  {
  }

  lemma ItemBelow(n: int, r: int, k: int, p: int)
    requires 0 < n < 126 && ItemAt(n, r, k) == true && 1 <= k && Below(n, p) == true
    ensures ItemAt(p, r, k - 1) == true
  {
    hide ItemAt, Below;
    if n < 26 {
      Prefixes0(n, r, k, p);
    } else if n < 35 {
      Prefixes26(n, r, k, p);
    } else if n < 45 {
      Prefixes35(n, r, k, p);
    } else if n < 60 {
      Prefixes45(n, r, k, p);
    } else if n < 90 {
      Prefixes60(n, r, k, p);
    } else {
      Prefixes90(n, r, k, p);
    }
  }

  /** Every dotted rule of a state ends its prefix in the symbol the state is entered on. */
  lemma PrefixesFit(n: int, r: int, k: int)
    requires 0 <= n < 126 && ItemAt(n, r, k) == true
    ensures 0 <= r < 79 && 0 <= k <= LengthAt(r) && (1 <= k ==> SymbolAt(r, k - 1) == EntryAt(n))
  {
    hide ItemAt, LengthAt, SymbolAt, EntryAt;
    if n < 45 {
      Fits0(n, r, k);
    } else if n < 80 {
      Fits45(n, r, k);
    } else {
      Fits80(n, r, k);
    }
  }

  lemma EnteredIs(p: int, x: int, n: int)
    requires EnteredAt(p, x, n) == true
    ensures 0 < n < 126 && Entered(TABLES, CERT, p, x, n)
  {
    hide ItemAt, Below, EntryAt, LengthAt, SymbolAt, IsState, Item;
    StatesAre(n);
    forall r, k | 1 <= k && Item(CERT, n, r, k)
      ensures 0 <= r < |TABLES.rhs| && k <= |TABLES.rhs[r]| && TABLES.rhs[r][k - 1] == x && Item(CERT, p, r, k - 1)
    {
      ItemIs(n, r, k);
      ItemIs(p, r, k - 1);
      PrefixesFit(n, r, k);
      RulesAre(r);
      SymbolsAre(r, k - 1);
      ItemBelow(n, r, k, p);
    }
  }

  lemma ActionsFit(s: int, k: int)
    requires 0 <= s < 126 && KindAt(k)
    ensures ActionOkAt(s, k, ActionAt(s, k)) == true
  {
    hide ItemAt, EnteredAt, PactAt, TableAt, CheckAt, DefactAt, LengthAt;
    if PactAt(s) == -32768 {
      Reductions(s);
    } else if s < 4 {
      Actions0(s, k);
    } else if s < 6 {
      Actions4(s, k);
    } else if s < 16 {
      Actions6(s, k);
    } else if s < 21 {
      Actions16(s, k);
    } else if s < 26 {
      Actions21(s, k);
    } else if s < 27 {
      Actions26(s, k);
    } else if s < 30 {
      Actions27(s, k);
    } else if s < 33 {
      Actions30(s, k);
    } else if s < 35 {
      Actions33(s, k);
    } else if s < 36 {
      Actions35(s, k);
    } else if s < 38 {
      Actions36(s, k);
    } else if s < 40 {
      Actions38(s, k);
    } else if s < 45 {
      Actions40(s, k);
    } else if s < 55 {
      Actions45(s, k);
    } else if s < 60 {
      Actions55(s, k);
    } else if s < 67 {
      Actions60(s, k);
    } else if s < 72 {
      Actions67(s, k);
    } else if s < 75 {
      Actions72(s, k);
    } else if s < 80 {
      Actions75(s, k);
    } else if s < 85 {
      Actions80(s, k);
    } else if s < 90 {
      Actions85(s, k);
    } else if s < 97 {
      Actions90(s, k);
    } else if s < 101 {
      Actions97(s, k);
    } else if s < 103 {
      Actions101(s, k);
    } else if s < 105 {
      Actions103(s, k);
    } else if s < 107 {
      Actions105(s, k);
    } else if s < 115 {
      Actions107(s, k);
    } else if s < 121 {
      Actions115(s, k);
    } else {
      Actions121(s, k);
    }
  }

  lemma GotosFit(s: int, r: int)
    requires 0 <= s < 126 && 1 <= r < 79 && ItemAt(s, r, 0) == true
    ensures EnteredAt(s, R1At(r), GotoAt(s, R1At(r))) == true
  {
    hide EnteredAt, GotoAt, R1At, ItemAt;
    if s < 1 {
      Gotos0(s, r);
    } else if s < 26 {
      Gotos1(s, r);
    } else if s < 27 {
      Gotos26(s, r);
    } else if s < 45 {
      Gotos27(s, r);
    } else if s < 80 {
      Gotos45(s, r);
    } else if s < 99 {
      Gotos80(s, r);
    } else {
      Gotos99(s, r);
    }
  }

  lemma ActionsAre(s: int, k: int)
    requires IsState(TABLES, s) && IsKind(TABLES, k)
    ensures ActionOk(TABLES, CERT, s, k, Lookup(TABLES, s, k))
  {
    hide ActionAt, ErrorActionAt, EnteredAt, ItemAt, LengthAt, Entered, Lookup, ErrorLookup, Item, IsState, IsKind,
        IsRule;
    StatesAre(s);
    StatesAre(k);
    LookupIs(s, k);
    ActionsFit(s, k);
    var n := ActionAt(s, k);
    if n > 0 && n != 126 {
      EnteredIs(s, k, n);
    } else if n < 0 {
      RulesAre(-n);
      ItemIs(s, -n, LengthAt(-n));
    } else if n > 0 {
      ItemIs(s, 0, 2);
    }
  }

  lemma ErrorsAre(s: int)
    requires IsState(TABLES, s)
    ensures ErrorOk(TABLES, CERT, s, ErrorLookup(TABLES, s))
  {
    hide ActionAt, ErrorActionAt, EnteredAt, Entered, Lookup, ErrorLookup, IsState;
    StatesAre(s);
    LookupIs(s, 0);
    Errors(s);
    if ErrorActionAt(s) != 0 {
      EnteredIs(s, 1, ErrorActionAt(s));
    }
  }

  lemma GotosAre(s: int, r: int)
    requires IsState(TABLES, s) && IsRule(TABLES, r) && Item(CERT, s, r, 0)
    ensures Entered(TABLES, CERT, s, TABLES.r1[r], Goto(TABLES, s, TABLES.r1[r]))
  {
    hide EnteredAt, Entered, Goto, GotoAt, ItemAt, Item, R1At, IsState;
    StatesAre(s);
    RulesAre(r);
    ItemIs(s, r, 0);
    GotosFit(s, r);
    GotoIs(s, r);
    EnteredIs(s, R1At(r), GotoAt(s, R1At(r)));
  }

  lemma EndsAre(s: int)
    requires IsState(TABLES, s) && Lookup(TABLES, s, YYEOF).Shift? && IsState(TABLES, Lookup(TABLES, s, YYEOF).state)
    ensures var n := Lookup(TABLES, s, YYEOF).state;
            TABLES.pact[n] != YYFLAG && Lookup(TABLES, n, YYEOF) == Accept
  {
    hide ActionAt, ErrorActionAt, EnteredAt, Lookup, ErrorLookup, IsState, EntryAt, Below, ItemAt, LengthAt;
    StatesAre(s);
    LookupIs(s, 0);
    ActionsFit(s, 0);
    EntryIs(s, ActionAt(s, 0));
    LookupIs(125, 0);
    LastAccepts();
  }

  lemma EntryIs(s: int, n: int)
    requires EnteredAt(s, 0, n) == true
    ensures n == 125
  {
    hide Below;
    Defaults(n);
  }

  lemma LastAccepts()
    ensures PactAt(125) != -32768 && ActionAt(125, 0) == 126
    ensures TABLES.pact[125] == PactAt(125)
  {
  }

  lemma DefaultsAre(s: int)
    requires IsState(TABLES, s)
    ensures TABLES.pact[s] == YYFLAG ==> Default(TABLES, s).Reduce?
    ensures Item(CERT, s, 0, 0) ==> s == 0
  {
    hide ItemAt, Item;
    Defaults(s);
    ItemIs(s, 0, 0);
  }

  lemma BottomIs(r: int, k: int)
    ensures Item(CERT, 0, r, k) ==> k == 0
    ensures 0 < |TABLES.rhs| && |TABLES.rhs[0]| == 2
    ensures IsNonterminal(TABLES, TABLES.rhs[0][0]) && TABLES.rhs[0][1] == YYEOF
  {
  }

  /** The tables pass the local check. */
  lemma TablesValid()
    ensures Valid(TABLES, CERT)
  {
    hide Lookup, ErrorLookup, ActionOk, ErrorOk, Entered, Goto, Item, Default;
    forall s, k | IsState(TABLES, s) && IsKind(TABLES, k) ensures ActionOk(TABLES, CERT, s, k, Lookup(TABLES, s, k)) {
      ActionsAre(s, k);
    }
    forall s | IsState(TABLES, s)
      ensures ErrorOk(TABLES, CERT, s, ErrorLookup(TABLES, s))
      ensures TABLES.pact[s] == YYFLAG ==> Default(TABLES, s).Reduce?
      ensures Item(CERT, s, 0, 0) ==> s == 0
    {
      ErrorsAre(s);
      DefaultsAre(s);
    }
    forall s, r | IsState(TABLES, s) && IsRule(TABLES, r) && Item(CERT, s, r, 0)
      ensures Entered(TABLES, CERT, s, TABLES.r1[r], Goto(TABLES, s, TABLES.r1[r]))
    {
      GotosAre(s, r);
    }
    forall s | IsState(TABLES, s) && Lookup(TABLES, s, YYEOF).Shift? && IsState(TABLES, Lookup(TABLES, s, YYEOF).state)
      ensures var n := Lookup(TABLES, s, YYEOF).state;
              TABLES.pact[n] != YYFLAG && Lookup(TABLES, n, YYEOF) == Accept
    {
      EndsAre(s);
    }
    forall r, k ensures Item(CERT, 0, r, k) ==> k == 0 {
      BottomIs(r, k);
    }
    BottomIs(0, 0);
    StatesAre(0);
  }

  // ---- Reductions pay for themselves ------------------------------------------------------------

  function WeightAt0x(i: int): int { match i case 0 => 0 case 1 => 0 case _ => 3 }
  function WeightAt1x(i: int): int { match i case _ => 3 }
  function WeightAt2x(i: int): int { match i case _ => 3 }
  function WeightAt3x(i: int): int { match i case _ => 3 }
  function WeightAt4x(i: int): int {
    match i
    case 45 => -5 case 46 => -1 case 47 => -3 case 48 => -2 case 49 => 0 case _ => 3
  }

  function WeightAt5x(i: int): int {
    match i
    case 50 => -1 case 51 => 6 case 52 => 5 case 53 => 6 case 54 => 5 case 55 => 4 case 57 => 2 case 58 => 2
    case 59 => 5 case _ => 3
  }

  function WeightAt6x(i: int): int {
    match i
    case 60 => 1 case 61 => 9 case 62 => 5 case 63 => -1 case 64 => 1 case 65 => 2 case 66 => -1 case 67 => 7
    case 68 => 7 case 69 => -1 case _ => 3
  }

  function WeightAt7x(i: int): int { match i case 70 => 2 case 71 => -1 case _ => 3 }

  /** The weight of each symbol. */
  function WeightAt(i: int): int {
    if i < 40 then
      if i < 20 then
        if i < 10 then WeightAt0x(i) else WeightAt1x(i)
      else
        if i < 30 then WeightAt2x(i) else WeightAt3x(i)
    else
      if i < 60 then
        if i < 50 then WeightAt4x(i) else WeightAt5x(i)
      else
        if i < 70 then WeightAt6x(i) else WeightAt7x(i)
  }

  const WEIGHTS: Weights := Weights(WeightAt, 3, 5)

  function PartAt(r: int, k: int): int {
    if k < LengthAt(r) then WeightAt(SymbolAt(r, k)) else 0
  }

  lemma SumIs(r: int, k: nat)
    requires k <= LengthAt(r)
    ensures Sum(WEIGHTS, RhsAt(r)[k..]) ==
            if k < LengthAt(r) then PartAt(r, k) + Sum(WEIGHTS, RhsAt(r)[k + 1..]) else 0
  {
    hide LengthAt, SymbolAt, WeightAt;
    if k < LengthAt(r) {
      assert RhsAt(r)[k..][0] == SymbolAt(r, k) && RhsAt(r)[k..][1..] == RhsAt(r)[k + 1..];
    }
  }

  lemma {:induction false} SumFrom(r: int, k: nat)
    requires k <= LengthAt(r) <= 9
    ensures Sum(WEIGHTS, RhsAt(r)[k..]) == (if k <= 0 then PartAt(r, 0) else 0) + (if k <= 1 then PartAt(r, 1)
        else 0) + (if k <= 2 then PartAt(r, 2) else 0) + (if k <= 3 then PartAt(r, 3) else 0) + (if k
        <= 4 then PartAt(r, 4) else 0) + (if k <= 5 then PartAt(r, 5) else 0) + (if k <= 6 then PartAt(r, 6)
        else 0) + (if k <= 7 then PartAt(r, 7) else 0) + (if k <= 8 then PartAt(r, 8) else 0)
    decreases 10 - k
  {
    hide LengthAt, SymbolAt, WeightAt, Sum;
    SumIs(r, k);
    if k < LengthAt(r) {
      SumFrom(r, k + 1);
    }
  }

  lemma Pays1(r: int)
    requires 1 <= r < 30
    ensures LengthAt(r) <= 9 && WeightAt(R1At(r)) + 1 <= PartAt(r, 0) + PartAt(r, 1) + PartAt(r, 2) + PartAt(r, 3)
        + PartAt(r, 4) + PartAt(r, 5) + PartAt(r, 6) + PartAt(r, 7) + PartAt(r, 8)
  {
  }

  lemma Pays30(r: int)
    requires 30 <= r < 60
    ensures LengthAt(r) <= 9 && WeightAt(R1At(r)) + 1 <= PartAt(r, 0) + PartAt(r, 1) + PartAt(r, 2) + PartAt(r, 3)
        + PartAt(r, 4) + PartAt(r, 5) + PartAt(r, 6) + PartAt(r, 7) + PartAt(r, 8)
  {
  }

  lemma Pays60(r: int)
    requires 60 <= r < 79
    ensures LengthAt(r) <= 9 && WeightAt(R1At(r)) + 1 <= PartAt(r, 0) + PartAt(r, 1) + PartAt(r, 2) + PartAt(r, 3)
        + PartAt(r, 4) + PartAt(r, 5) + PartAt(r, 6) + PartAt(r, 7) + PartAt(r, 8)
  {
  }

  lemma RulesPay(r: int)
    requires 1 <= r < 79
    ensures LengthAt(r) <= 9 && WeightAt(R1At(r)) + 1 <= PartAt(r, 0) + PartAt(r, 1) + PartAt(r, 2) + PartAt(r, 3)
        + PartAt(r, 4) + PartAt(r, 5) + PartAt(r, 6) + PartAt(r, 7) + PartAt(r, 8)
  {
    hide LengthAt, WeightAt, R1At, PartAt;
    if r < 30 {
      Pays1(r);
    } else if r < 60 {
      Pays30(r);
    } else {
      Pays60(r);
    }
  }

  lemma WeightsBounded(x: int)
    ensures 0 <= WeightAt(x) + 5 && (KindAt(x) ==> WeightAt(x) <= 3) && WeightAt(0) == 0 == WeightAt(1)
  {
  }

  /** The grammar has no idle reductions: yyparse on these tables always returns. */
  lemma TablesWeighted()
    ensures Weighted(TABLES, WEIGHTS)
  {
    hide WeightAt, PartAt, R1At, LengthAt, KindAt, IsKind;
    forall x ensures 0 <= Weight(WEIGHTS, x) + WEIGHTS.debt && (IsKind(TABLES, x)
        ==> Weight(WEIGHTS, x) <= WEIGHTS.token) {
      WeightsBounded(x);
      StatesAre(x);
    }
    WeightsBounded(0);
    forall r | IsRule(TABLES, r) ensures Weight(WEIGHTS, TABLES.r1[r]) + 1 <= Sum(WEIGHTS, TABLES.rhs[r]) {
      RulesAre(r);
      RulesPay(r);
      SumFrom(r, 0);
      assert TABLES.rhs[r] == RhsAt(r)[0..];
    }
  }
}
