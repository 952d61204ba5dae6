/** The grammar of the C parser, from yyr1, yyprhs and yyrhs of src/analyzer/gram-tab.cc. */
module GramGrammar {
  import opened LrTables

  const RULES := 317

  function R1At0x(i: int): int {
    match i
    case 1 => 92 case 2 => 92 case 3 => 92 case 4 => 92 case 5 => 92 case 6 => 92 case 7 => 92 case 8 => 93
    case 9 => 93 case _ => 0
  }

  function R1At1x(i: int): int {
    match i
    case 10 => 94 case 11 => 94 case 12 => 94 case 13 => 94 case 14 => 94 case 15 => 95 case 16 => 95 case 17 => 96
    case 18 => 96 case 19 => 96 case _ => 0
  }

  function R1At2x(i: int): int {
    match i
    case 20 => 97 case 21 => 96 case 22 => 98 case 23 => 96 case 24 => 96 case 25 => 96 case 26 => 99 case 27 => 99
    case 28 => 100 case 29 => 100 case _ => 0
  }

  function R1At3x(i: int): int {
    match i
    case 30 => 101 case 31 => 101 case 32 => 101 case 33 => 101 case 34 => 101 case 35 => 101 case 36 => 102
    case 37 => 102 case 38 => 102 case 39 => 102 case _ => 0
  }

  function R1At4x(i: int): int {
    match i
    case 40 => 102 case 41 => 102 case 42 => 103 case 43 => 103 case 44 => 104 case 45 => 104 case 46 => 104
    case 47 => 104 case 48 => 105 case 49 => 105 case _ => 0
  }

  function R1At5x(i: int): int {
    match i
    case 50 => 105 case 51 => 106 case 52 => 106 case 53 => 106 case 54 => 107 case 55 => 107 case 56 => 107
    case 57 => 107 case 58 => 107 case 59 => 108 case _ => 0
  }

  function R1At6x(i: int): int {
    match i
    case 60 => 108 case 61 => 108 case 62 => 109 case 63 => 109 case 64 => 110 case 65 => 110 case 66 => 111
    case 67 => 111 case 68 => 112 case 69 => 112 case _ => 0
  }

  function R1At7x(i: int): int {
    match i
    case 70 => 113 case 71 => 113 case 72 => 114 case 73 => 114 case 74 => 115 case 75 => 115 case 76 => 116
    case 77 => 116 case 78 => 116 case 79 => 116 case _ => 0
  }

  function R1At8x(i: int): int {
    match i
    case 80 => 116 case 81 => 116 case 82 => 116 case 83 => 116 case 84 => 116 case 85 => 116 case 86 => 116
    case 87 => 117 case 88 => 117 case 89 => 118 case _ => 0
  }

  function R1At9x(i: int): int {
    match i
    case 90 => 119 case 91 => 119 case 92 => 120 case 93 => 120 case 94 => 120 case 95 => 120 case 96 => 122
    case 97 => 121 case 98 => 123 case 99 => 121 case _ => 0
  }

  function R1At10x(i: int): int {
    match i
    case 100 => 124 case 101 => 121 case 102 => 126 case 103 => 125 case 104 => 127 case 105 => 125 case 106 => 128
    case 107 => 125 case 108 => 129 case 109 => 129 case _ => 0
  }

  function R1At11x(i: int): int {
    match i
    case 110 => 129 case 111 => 130 case 112 => 130 case 113 => 130 case 114 => 131 case 115 => 131 case 116 => 131
    case 117 => 132 case 118 => 132 case 119 => 133 case _ => 0
  }

  function R1At12x(i: int): int {
    match i
    case 120 => 133 case 121 => 134 case 122 => 134 case 123 => 135 case 124 => 135 case 125 => 135 case 126 => 135
    case 127 => 136 case 128 => 136 case 129 => 136 case _ => 0
  }

  function R1At13x(i: int): int {
    match i
    case 130 => 136 case 131 => 137 case 132 => 137 case 133 => 137 case 134 => 138 case 135 => 138 case 136 => 138
    case 137 => 139 case 138 => 139 case 139 => 139 case _ => 0
  }

  function R1At14x(i: int): int {
    match i
    case 140 => 140 case 141 => 140 case 142 => 140 case 143 => 141 case 144 => 141 case 145 => 141 case 146 => 141
    case 147 => 141 case 148 => 142 case 149 => 142 case _ => 0
  }

  function R1At15x(i: int): int {
    match i
    case 150 => 142 case 151 => 142 case 152 => 142 case 153 => 142 case 154 => 142 case 155 => 142 case 156 => 142
    case 157 => 143 case 158 => 143 case 159 => 145 case _ => 0
  }

  function R1At16x(i: int): int {
    match i
    case 160 => 144 case 161 => 146 case 162 => 144 case 163 => 144 case 164 => 147 case 165 => 147 case 166 => 148
    case 167 => 148 case 168 => 149 case 169 => 149 case _ => 0
  }

  function R1At17x(i: int): int {
    match i
    case 170 => 150 case 171 => 150 case 172 => 151 case 173 => 151 case 174 => 152 case 175 => 152 case 176 => 153
    case 177 => 153 case 178 => 154 case 179 => 154 case _ => 0
  }

  function R1At18x(i: int): int {
    match i
    case 180 => 155 case 181 => 156 case 182 => 156 case 183 => 156 case 184 => 157 case 185 => 157 case 186 => 158
    case 187 => 158 case 188 => 159 case 189 => 159 case _ => 0
  }

  function R1At19x(i: int): int {
    match i
    case 190 => 160 case 191 => 160 case 192 => 161 case 193 => 161 case 194 => 161 case 195 => 161 case 196 => 161
    case 197 => 161 case 198 => 161 case 199 => 161 case _ => 0
  }

  function R1At20x(i: int): int {
    match i
    case 200 => 161 case 201 => 161 case 202 => 162 case 203 => 162 case 204 => 163 case 205 => 163 case 206 => 164
    case 207 => 164 case 208 => 165 case 209 => 165 case _ => 0
  }

  function R1At21x(i: int): int {
    match i
    case 210 => 166 case 211 => 166 case 212 => 166 case 213 => 167 case 214 => 167 case 215 => 168 case 216 => 168
    case 217 => 168 case 218 => 168 case 219 => 168 case _ => 0
  }

  function R1At22x(i: int): int {
    match i
    case 220 => 168 case 221 => 169 case 222 => 169 case 223 => 169 case 224 => 171 case 225 => 170 case 226 => 172
    case 227 => 173 case 228 => 174 case 229 => 174 case _ => 0
  }

  function R1At23x(i: int): int {
    match i
    case 230 => 175 case 231 => 175 case 232 => 176 case 233 => 176 case 234 => 177 case 235 => 178 case 236 => 178
    case 237 => 178 case 238 => 179 case 239 => 179 case _ => 0
  }

  function R1At24x(i: int): int {
    match i
    case 240 => 179 case 241 => 180 case 242 => 180 case 243 => 180 case 244 => 180 case 245 => 182 case 246 => 181
    case 247 => 183 case 248 => 183 case 249 => 183 case _ => 0
  }

  function R1At25x(i: int): int {
    match i
    case 250 => 183 case 251 => 184 case 252 => 184 case 253 => 184 case 254 => 185 case 255 => 185 case 256 => 186
    case 257 => 187 case 258 => 186 case 259 => 189 case _ => 0
  }

  function R1At26x(i: int): int {
    match i
    case 260 => 188 case 261 => 190 case 262 => 188 case 263 => 191 case 264 => 188 case 265 => 192 case 266 => 188
    case 267 => 193 case 268 => 188 case 269 => 194 case _ => 0
  }

  function R1At27x(i: int): int {
    match i
    case 270 => 195 case 271 => 195 case 272 => 196 case 273 => 196 case 274 => 197 case 275 => 197 case 276 => 198
    case 277 => 198 case 278 => 198 case 279 => 198 case _ => 0
  }

  function R1At28x(i: int): int {
    match i
    case 280 => 199 case 281 => 199 case 282 => 199 case 283 => 200 case 284 => 200 case 285 => 201 case 286 => 201
    case 287 => 202 case 288 => 202 case 289 => 203 case _ => 0
  }

  function R1At29x(i: int): int {
    match i
    case 290 => 203 case 291 => 203 case 292 => 203 case 293 => 203 case 294 => 204 case 295 => 204 case 296 => 206
    case 297 => 205 case 298 => 205 case 299 => 205 case _ => 0
  }

  function R1At30x(i: int): int {
    match i
    case 300 => 205 case 301 => 207 case 302 => 207 case 303 => 208 case 304 => 208 case 305 => 208 case 306 => 208
    case 307 => 208 case 308 => 209 case 309 => 209 case _ => 0
  }

  function R1At31x(i: int): int {
    match i
    case 310 => 210 case 311 => 210 case 312 => 211 case 313 => 210 case 314 => 212 case 315 => 212 case 316 => 212
    case _ => 0
  }

  /** yyr1 */
  function R1At(i: int): int {
    if i < 160 then
      if i < 80 then
        if i < 40 then
          if i < 20 then
            if i < 10 then R1At0x(i) else R1At1x(i)
          else
            if i < 30 then R1At2x(i) else R1At3x(i)
        else
          if i < 60 then
            if i < 50 then R1At4x(i) else R1At5x(i)
          else
            if i < 70 then R1At6x(i) else R1At7x(i)
      else
        if i < 120 then
          if i < 100 then
            if i < 90 then R1At8x(i) else R1At9x(i)
          else
            if i < 110 then R1At10x(i) else R1At11x(i)
        else
          if i < 140 then
            if i < 130 then R1At12x(i) else R1At13x(i)
          else
            if i < 150 then R1At14x(i) else R1At15x(i)
    else
      if i < 240 then
        if i < 200 then
          if i < 180 then
            if i < 170 then R1At16x(i) else R1At17x(i)
          else
            if i < 190 then R1At18x(i) else R1At19x(i)
        else
          if i < 220 then
            if i < 210 then R1At20x(i) else R1At21x(i)
          else
            if i < 230 then R1At22x(i) else R1At23x(i)
      else
        if i < 280 then
          if i < 260 then
            if i < 250 then R1At24x(i) else R1At25x(i)
          else
            if i < 270 then R1At26x(i) else R1At27x(i)
        else
          if i < 300 then
            if i < 290 then R1At28x(i) else R1At29x(i)
          else
            if i < 310 then R1At30x(i) else R1At31x(i)
  }

  /** The lengths of the right-hand sides, yyr2; rule 0 is the augmented rule. */
  function LengthAt0x(i: int): int {
    match i
    case 0 => 2 case 1 => 1 case 2 => 1 case 3 => 1 case 4 => 1 case 5 => 1 case 6 => 1 case 7 => 1 case 8 => 1
    case 9 => 2 case _ => 0
  }

  function LengthAt1x(i: int): int {
    match i
    case 10 => 1 case 11 => 3 case 12 => 1 case 13 => 1 case 14 => 3 case 15 => 2 case 16 => 3 case 17 => 1
    case 18 => 4 case 19 => 2 case _ => 0
  }

  function LengthAt2x(i: int): int {
    match i
    case 21 => 4 case 23 => 4 case 24 => 2 case 25 => 2 case 26 => 1 case 27 => 1 case 28 => 1 case 29 => 3
    case _ => 0
  }

  function LengthAt3x(i: int): int {
    match i
    case 30 => 1 case 31 => 2 case 32 => 2 case 33 => 2 case 34 => 2 case 35 => 4 case 36 => 1 case 37 => 1
    case 38 => 1 case 39 => 1 case _ => 0
  }

  function LengthAt4x(i: int): int {
    match i
    case 40 => 1 case 41 => 1 case 42 => 1 case 43 => 4 case 44 => 1 case 45 => 3 case 46 => 3 case 47 => 3
    case 48 => 1 case 49 => 3 case _ => 0
  }

  function LengthAt5x(i: int): int {
    match i
    case 50 => 3 case 51 => 1 case 52 => 3 case 53 => 3 case 54 => 1 case 55 => 3 case 56 => 3 case 57 => 3
    case 58 => 3 case 59 => 1 case _ => 0
  }

  function LengthAt6x(i: int): int {
    match i
    case 60 => 3 case 61 => 3 case 62 => 1 case 63 => 3 case 64 => 1 case 65 => 3 case 66 => 1 case 67 => 3
    case 68 => 1 case 69 => 3 case _ => 0
  }

  function LengthAt7x(i: int): int {
    match i
    case 70 => 1 case 71 => 3 case 72 => 1 case 73 => 5 case 74 => 1 case 75 => 3 case 76 => 1 case 77 => 1
    case 78 => 1 case 79 => 1 case _ => 0
  }

  function LengthAt8x(i: int): int {
    match i
    case 80 => 1 case 81 => 1 case 82 => 1 case 83 => 1 case 84 => 1 case 85 => 1 case 86 => 1 case 87 => 1
    case 88 => 3 case 89 => 1 case _ => 0
  }

  function LengthAt9x(i: int): int {
    match i
    case 91 => 1 case 92 => 2 case 93 => 2 case 94 => 2 case 95 => 2 case 97 => 4 case 99 => 4 case _ => 0
  }

  function LengthAt10x(i: int): int {
    match i
    case 101 => 5 case 103 => 4 case 105 => 4 case 107 => 5 case 108 => 1 case 109 => 1 case _ => 0
  }

  function LengthAt11x(i: int): int {
    match i
    case 110 => 1 case 111 => 1 case 112 => 1 case 113 => 1 case 114 => 1 case 115 => 2 case 116 => 2 case 117 => 1
    case 118 => 2 case 119 => 1 case _ => 0
  }

  function LengthAt12x(i: int): int {
    match i
    case 120 => 1 case 121 => 1 case 122 => 1 case 123 => 2 case 124 => 2 case 125 => 2 case 126 => 2 case 127 => 1
    case 128 => 2 case 129 => 2 case _ => 0
  }

  function LengthAt13x(i: int): int {
    match i
    case 130 => 2 case 131 => 2 case 132 => 2 case 133 => 2 case 134 => 1 case 135 => 2 case 136 => 2 case 137 => 2
    case 138 => 2 case 139 => 2 case _ => 0
  }

  function LengthAt14x(i: int): int {
    match i
    case 140 => 1 case 141 => 2 case 142 => 2 case 143 => 1 case 144 => 1 case 145 => 1 case 146 => 1 case 147 => 1
    case 148 => 1 case 149 => 1 case _ => 0
  }

  function LengthAt15x(i: int): int {
    match i
    case 150 => 1 case 151 => 1 case 152 => 1 case 153 => 1 case 154 => 1 case 155 => 1 case 156 => 1 case 157 => 1
    case 158 => 1 case _ => 0
  }

  function LengthAt16x(i: int): int {
    match i
    case 160 => 5 case 162 => 6 case 163 => 2 case 164 => 1 case 165 => 1 case 166 => 1 case 167 => 2 case 168 => 2
    case 169 => 2 case _ => 0
  }

  function LengthAt17x(i: int): int {
    match i
    case 170 => 2 case 171 => 3 case 172 => 2 case 173 => 3 case 174 => 2 case 175 => 1 case 176 => 2 case 177 => 1
    case 179 => 1 case _ => 0
  }

  function LengthAt18x(i: int): int {
    match i
    case 180 => 2 case 181 => 4 case 182 => 5 case 183 => 2 case 184 => 2 case 185 => 4 case 187 => 2 case 188 => 1
    case 189 => 3 case _ => 0
  }

  function LengthAt19x(i: int): int {
    match i
    case 190 => 1 case 191 => 3 case 192 => 2 case 193 => 2 case 194 => 2 case 195 => 2 case 196 => 2 case 197 => 2
    case 198 => 2 case 199 => 2 case _ => 0
  }

  function LengthAt20x(i: int): int {
    match i
    case 200 => 2 case 201 => 2 case 202 => 1 case 203 => 3 case 204 => 1 case 205 => 1 case 206 => 2 case 207 => 2
    case 209 => 2 case _ => 0
  }

  function LengthAt21x(i: int): int {
    match i
    case 210 => 3 case 211 => 4 case 212 => 1 case 213 => 1 case 214 => 3 case 215 => 1 case 216 => 1 case 217 => 1
    case 218 => 1 case 219 => 1 case _ => 0
  }

  function LengthAt22x(i: int): int {
    match i
    case 220 => 1 case 221 => 3 case 222 => 4 case 223 => 3 case 225 => 4 case 227 => 3 case 229 => 2 case _ => 0
  }

  function LengthAt23x(i: int): int {
    match i
    case 230 => 1 case 232 => 1 case 233 => 2 case 234 => 2 case 235 => 5 case 236 => 7 case 237 => 5 case 238 => 5
    case 239 => 7 case _ => 0
  }

  function LengthAt24x(i: int): int {
    match i
    case 240 => 9 case 241 => 3 case 242 => 2 case 243 => 2 case 244 => 3 case 246 => 2 case 247 => 1 case 248 => 2
    case 249 => 2 case _ => 0
  }

  function LengthAt25x(i: int): int {
    match i
    case 250 => 2 case 251 => 1 case 252 => 1 case 253 => 2 case 254 => 4 case 255 => 4 case 256 => 1 case 258 => 3
    case _ => 0
  }

  function LengthAt26x(i: int): int {
    match i
    case 260 => 3 case 262 => 4 case 264 => 4 case 266 => 4 case 268 => 4 case 269 => 3 case _ => 0
  }

  function LengthAt27x(i: int): int {
    match i
    case 270 => 1 case 271 => 1 case 272 => 1 case 273 => 1 case 274 => 1 case 275 => 1 case 276 => 3 case 277 => 4
    case 278 => 2 case 279 => 2 case _ => 0
  }

  function LengthAt28x(i: int): int {
    match i
    case 280 => 3 case 281 => 4 case 282 => 2 case 283 => 1 case 284 => 1 case 285 => 1 case 286 => 2 case 287 => 1
    case 288 => 1 case 289 => 2 case _ => 0
  }

  function LengthAt29x(i: int): int {
    match i
    case 290 => 2 case 291 => 3 case 292 => 4 case 293 => 2 case 294 => 1 case 295 => 3 case 297 => 5 case 298 => 3
    case 299 => 4 case _ => 0
  }

  function LengthAt30x(i: int): int {
    match i
    case 300 => 2 case 301 => 1 case 303 => 1 case 304 => 1 case 305 => 2 case 306 => 3 case 307 => 4 case 308 => 1
    case 309 => 2 case _ => 0
  }

  function LengthAt31x(i: int): int {
    match i
    case 310 => 1 case 311 => 2 case 313 => 4 case 314 => 2 case 315 => 3 case 316 => 4 case _ => 0
  }

  function LengthAt(i: int): int {
    if i < 160 then
      if i < 80 then
        if i < 40 then
          if i < 20 then
            if i < 10 then LengthAt0x(i) else LengthAt1x(i)
          else
            if i < 30 then LengthAt2x(i) else LengthAt3x(i)
        else
          if i < 60 then
            if i < 50 then LengthAt4x(i) else LengthAt5x(i)
          else
            if i < 70 then LengthAt6x(i) else LengthAt7x(i)
      else
        if i < 120 then
          if i < 100 then
            if i < 90 then LengthAt8x(i) else LengthAt9x(i)
          else
            if i < 110 then LengthAt10x(i) else LengthAt11x(i)
        else
          if i < 140 then
            if i < 130 then LengthAt12x(i) else LengthAt13x(i)
          else
            if i < 150 then LengthAt14x(i) else LengthAt15x(i)
    else
      if i < 240 then
        if i < 200 then
          if i < 180 then
            if i < 170 then LengthAt16x(i) else LengthAt17x(i)
          else
            if i < 190 then LengthAt18x(i) else LengthAt19x(i)
        else
          if i < 220 then
            if i < 210 then LengthAt20x(i) else LengthAt21x(i)
          else
            if i < 230 then LengthAt22x(i) else LengthAt23x(i)
      else
        if i < 280 then
          if i < 260 then
            if i < 250 then LengthAt24x(i) else LengthAt25x(i)
          else
            if i < 270 then LengthAt26x(i) else LengthAt27x(i)
        else
          if i < 300 then
            if i < 290 then LengthAt28x(i) else LengthAt29x(i)
          else
            if i < 310 then LengthAt30x(i) else LengthAt31x(i)
  }

  function SymbolAt0x(r: int, k: int): int {
    match r
    case 0 => if k == 0 then 181 else 0
    case 1 => 36
    case 2 => 39
    case 3 => 38
    case 4 => 41
    case 5 => 35
    case 6 => 42
    case 7 => 37
    case 8 => 40
    case 9 => if k == 0 then 93 else 40
    case _ => -1
  }

  function SymbolAt1x(r: int, k: int): int {
    match r
    case 10 => 65
    case 11 => if k == 0 then 67 else if k == 1 then 68 else 65
    case 12 => 92
    case 13 => 93
    case 14 => if k == 0 then 69 else if k == 1 then 117 else 68
    case 15 => if k == 0 then 69 else 68
    case 16 => if k == 0 then 69 else if k == 1 then 100 else 68
    case 17 => 94
    case 18 => if k == 0 then 96 else if k == 1 then 70 else if k == 2 then 117 else 71
    case 19 => if k == 0 then 96 else 95
    case _ => -1
  }

  function SymbolAt2x(r: int, k: int): int {
    match r
    case 21 => if k == 0 then 96 else if k == 1 then 97 else if k == 2 then 72 else 99
    case 23 => if k == 0 then 96 else if k == 1 then 98 else if k == 2 then 43 else 99
    case 24 => if k == 0 then 96 else 44
    case 25 => if k == 0 then 96 else 45
    case 26 => 65
    case 27 => 66
    case 28 => 115
    case 29 => if k == 0 then 100 else if k == 1 then 73 else 115
    case _ => -1
  }

  function SymbolAt3x(r: int, k: int): int {
    match r
    case 30 => 96
    case 31 => if k == 0 then 44 else 101
    case 32 => if k == 0 then 45 else 101
    case 33 => if k == 0 then 102 else 103
    case 34 => if k == 0 then 29 else 101
    case 35 => if k == 0 then 29 else if k == 1 then 69 else if k == 2 then 164 else 68
    case 36 => 74
    case 37 => 75
    case 38 => 76
    case 39 => 77
    case _ => -1
  }

  function SymbolAt4x(r: int, k: int): int {
    match r
    case 40 => 78
    case 41 => 79
    case 42 => 101
    case 43 => if k == 0 then 69 else if k == 1 then 164 else if k == 2 then 68 else 103
    case 44 => 103
    case 45 => if k == 0 then 104 else if k == 1 then 75 else 103
    case 46 => if k == 0 then 104 else if k == 1 then 80 else 103
    case 47 => if k == 0 then 104 else if k == 1 then 81 else 103
    case 48 => 104
    case 49 => if k == 0 then 105 else if k == 1 then 76 else 104
    case _ => -1
  }

  function SymbolAt5x(r: int, k: int): int {
    match r
    case 50 => if k == 0 then 105 else if k == 1 then 77 else 104
    case 51 => 105
    case 52 => if k == 0 then 106 else if k == 1 then 46 else 105
    case 53 => if k == 0 then 106 else if k == 1 then 47 else 105
    case 54 => 106
    case 55 => if k == 0 then 107 else if k == 1 then 82 else 106
    case 56 => if k == 0 then 107 else if k == 1 then 83 else 106
    case 57 => if k == 0 then 107 else if k == 1 then 48 else 106
    case 58 => if k == 0 then 107 else if k == 1 then 49 else 106
    case 59 => 107
    case _ => -1
  }

  function SymbolAt6x(r: int, k: int): int {
    match r
    case 60 => if k == 0 then 108 else if k == 1 then 50 else 107
    case 61 => if k == 0 then 108 else if k == 1 then 51 else 107
    case 62 => 108
    case 63 => if k == 0 then 109 else if k == 1 then 74 else 108
    case 64 => 109
    case 65 => if k == 0 then 110 else if k == 1 then 84 else 109
    case 66 => 110
    case 67 => if k == 0 then 111 else if k == 1 then 85 else 110
    case 68 => 111
    case 69 => if k == 0 then 112 else if k == 1 then 52 else 111
    case _ => -1
  }

  function SymbolAt7x(r: int, k: int): int {
    match r
    case 70 => 112
    case 71 => if k == 0 then 113 else if k == 1 then 53 else 112
    case 72 => 113
    case 73 => if k == 0 then 113 else if k == 1 then 86 else if k == 2 then 117 else if k == 3 then 87 else 114
    case 74 => 114
    case 75 => if k == 0 then 101 else if k == 1 then 116 else 115
    case 76 => 88
    case 77 => 55
    case 78 => 56
    case 79 => 57
    case _ => -1
  }

  function SymbolAt8x(r: int, k: int): int {
    match r
    case 80 => 58
    case 81 => 59
    case 82 => 60
    case 83 => 61
    case 84 => 62
    case 85 => 63
    case 86 => 64
    case 87 => 115
    case 88 => if k == 0 then 117 else if k == 1 then 73 else 115
    case 89 => 114
    case _ => -1
  }

  function SymbolAt9x(r: int, k: int): int {
    match r
    case 91 => 117
    case 92 => if k == 0 then 137 else 89
    case 93 => if k == 0 then 138 else 89
    case 94 => if k == 0 then 125 else 89
    case 95 => if k == 0 then 121 else 89
    case 97 => if k == 0 then 131 else if k == 1 then 202 else if k == 2 then 122 else 165
    case 99 => if k == 0 then 132 else if k == 1 then 202 else if k == 2 then 123 else 165
    case _ => -1
  }

  function SymbolAt10x(r: int, k: int): int {
    match r
    case 101 => if k == 0 then 121 else if k == 1 then 73 else if k == 2 then 202 else if k == 3 then 124 else 165
    case 103 => if k == 0 then 129 else if k == 1 then 195 else if k == 2 then 126 else 165
    case 105 => if k == 0 then 130 else if k == 1 then 195 else if k == 2 then 127 else 165
    case 107 => if k == 0 then 125 else if k == 1 then 73 else if k == 2 then 195 else if k == 3 then 128 else 165
    case 108 => 135
    case 109 => 137
    case _ => -1
  }

  function SymbolAt11x(r: int, k: int): int {
    match r
    case 110 => 139
    case 111 => 136
    case 112 => 138
    case 113 => 140
    case 114 => 141
    case 115 => if k == 0 then 132 else 141
    case 116 => if k == 0 then 131 else 133
    case 117 => 134
    case 118 => if k == 0 then 132 else 134
    case 119 => 141
    case _ => -1
  }

  function SymbolAt12x(r: int, k: int): int {
    match r
    case 120 => 134
    case 121 => 19
    case 122 => 30
    case 123 => if k == 0 then 131 else 142
    case 124 => if k == 0 then 136 else 141
    case 125 => if k == 0 then 135 else 133
    case 126 => if k == 0 then 135 else 142
    case 127 => 142
    case 128 => if k == 0 then 132 else 142
    case 129 => if k == 0 then 136 else 134
    case _ => -1
  }

  function SymbolAt13x(r: int, k: int): int {
    match r
    case 130 => if k == 0 then 136 else 142
    case 131 => if k == 0 then 131 else 143
    case 132 => if k == 0 then 138 else 141
    case 133 => if k == 0 then 137 else 133
    case 134 => 143
    case 135 => if k == 0 then 132 else 143
    case 136 => if k == 0 then 138 else 134
    case 137 => if k == 0 then 140 else 141
    case 138 => if k == 0 then 131 else 66
    case 139 => if k == 0 then 139 else 133
    case _ => -1
  }

  function SymbolAt14x(r: int, k: int): int {
    match r
    case 140 => 66
    case 141 => if k == 0 then 132 else 66
    case 142 => if k == 0 then 140 else 134
    case 143 => 14
    case 144 => 16
    case 145 => 33
    case 146 => 3
    case 147 => 13
    case 148 => 5
    case 149 => 15
    case _ => -1
  }

  function SymbolAt15x(r: int, k: int): int {
    match r
    case 150 => 21
    case 151 => 9
    case 152 => 20
    case 153 => 4
    case 154 => 25
    case 155 => 22
    case 156 => 26
    case 157 => 144
    case 158 => 156
    case _ => -1
  }

  function SymbolAt16x(r: int, k: int): int {
    match r
    case 160 => if k == 0 then 147 else if k == 1 then 90 else if k == 2 then 145 else if k == 3 then 148 else 91
    case 162 => if k == 0 then 147 else if k == 1 then 163 else if k == 2 then 146 else if k == 3 then 90
        else if k == 4 then 148 else 91
    case 163 => if k == 0 then 147 else 163
    case 164 => 6
    case 165 => 18
    case 166 => 149
    case 167 => if k == 0 then 148 else 149
    case 168 => if k == 0 then 151 else 89
    case 169 => if k == 0 then 150 else 89
    case _ => -1
  }

  function SymbolAt17x(r: int, k: int): int {
    match r
    case 170 => if k == 0 then 132 else 153
    case 171 => if k == 0 then 150 else if k == 1 then 73 else 153
    case 172 => if k == 0 then 130 else 152
    case 173 => if k == 0 then 151 else if k == 1 then 73 else 152
    case 174 => if k == 0 then 195 else 154
    case 175 => 155
    case 176 => if k == 0 then 202 else 154
    case 177 => 155
    case 179 => 155
    case _ => -1
  }

  function SymbolAt18x(r: int, k: int): int {
    match r
    case 180 => if k == 0 then 87 else 118
    case 181 => if k == 0 then 12 else if k == 1 then 90 else if k == 2 then 157 else 91
    case 182 => if k == 0 then 12 else if k == 1 then 163 else if k == 2 then 90 else if k == 3 then 157 else 91
    case 183 => if k == 0 then 12 else 163
    case 184 => if k == 0 then 163 else 158
    case 185 => if k == 0 then 157 else if k == 1 then 73 else if k == 2 then 163 else 158
    case 187 => if k == 0 then 88 else 118
    case 188 => 160
    case 189 => if k == 0 then 160 else if k == 1 then 73 else 54
    case _ => -1
  }

  function SymbolAt19x(r: int, k: int): int {
    match r
    case 190 => 161
    case 191 => if k == 0 then 160 else if k == 1 then 73 else 161
    case 192 => if k == 0 then 129 else 207
    case 193 => if k == 0 then 129 else 202
    case 194 => if k == 0 then 129 else 197
    case 195 => if k == 0 then 130 else 207
    case 196 => if k == 0 then 130 else 202
    case 197 => if k == 0 then 130 else 197
    case 198 => if k == 0 then 131 else 207
    case 199 => if k == 0 then 131 else 202
    case _ => -1
  }

  function SymbolAt20x(r: int, k: int): int {
    match r
    case 200 => if k == 0 then 132 else 207
    case 201 => if k == 0 then 132 else 202
    case 202 => 65
    case 203 => if k == 0 then 162 else if k == 1 then 73 else 65
    case 204 => 65
    case 205 => 66
    case 206 => if k == 0 then 130 else 207
    case 207 => if k == 0 then 132 else 207
    case 209 => if k == 0 then 88 else 166
    case _ => -1
  }

  function SymbolAt21x(r: int, k: int): int {
    match r
    case 210 => if k == 0 then 90 else if k == 1 then 167 else 91
    case 211 => if k == 0 then 90 else if k == 1 then 167 else if k == 2 then 73 else 91
    case 212 => 115
    case 213 => 166
    case 214 => if k == 0 then 167 else if k == 1 then 73 else 166
    case 215 => 169
    case 216 => 170
    case 217 => 177
    case 218 => 178
    case 219 => 179
    case _ => -1
  }

  function SymbolAt22x(r: int, k: int): int {
    match r
    case 220 => 180
    case 221 => if k == 0 then 163 else if k == 1 then 87 else 168
    case 222 => if k == 0 then 11 else if k == 1 then 118 else if k == 2 then 87 else 168
    case 223 => if k == 0 then 27 else if k == 1 then 87 else 168
    case 225 => if k == 0 then 90 else if k == 1 then 171 else if k == 2 then 173 else 91
    case 227 => if k == 0 then 172 else if k == 1 then 174 else 175
    case 229 => if k == 0 then 174 else 120
    case _ => -1
  }

  function SymbolAt23x(r: int, k: int): int {
    match r
    case 230 => 176
    case 232 => 168
    case 233 => if k == 0 then 176 else 168
    case 234 => if k == 0 then 119 else 89
    case 235 => if k == 0 then 32 else if k == 1 then 69 else if k == 2 then 117 else if k == 3 then 68 else 168
    case 236 => if k == 0 then 32 else if k == 1 then 69 else if k == 2 then 117 else if k == 3 then 68
        else if k == 4 then 168 else if k == 5 then 8 else 168
    case 237 => if k == 0 then 10 else if k == 1 then 69 else if k == 2 then 117 else if k == 3 then 68 else 168
    case 238 => if k == 0 then 34 else if k == 1 then 69 else if k == 2 then 117 else if k == 3 then 68 else 168
    case 239 => if k == 0 then 31 else if k == 1 then 168 else if k == 2 then 34 else if k == 3 then 69
        else if k == 4 then 117 else if k == 5 then 68 else 89
    case _ => -1
  }

  function SymbolAt24x(r: int, k: int): int {
    match r
    case 240 => if k == 0 then 24 else if k == 1 then 69 else if k == 2 then 119 else if k == 3 then 89
        else if k == 4 then 119 else if k == 5 then 89 else if k == 6 then 119 else if k == 7 then 68 else 168
    case 241 => if k == 0 then 28 else if k == 1 then 163 else 89
    case 242 => if k == 0 then 23 else 89
    case 243 => if k == 0 then 7 else 89
    case 244 => if k == 0 then 17 else if k == 1 then 119 else 89
    case 246 => if k == 0 then 182 else 183
    case 247 => 184
    case 248 => if k == 0 then 183 else 184
    case 249 => if k == 0 then 65 else 87
    case _ => -1
  }

  function SymbolAt25x(r: int, k: int): int {
    match r
    case 250 => if k == 0 then 65 else 65
    case 251 => 188
    case 252 => 120
    case 253 => if k == 0 then 185 else 89
    case 254 => if k == 0 then 14 else if k == 1 then 67 else if k == 2 then 68 else 66
    case 255 => if k == 0 then 14 else if k == 1 then 67 else if k == 2 then 68 else 65
    case 256 => 202
    case 258 => if k == 0 then 205 else if k == 1 then 187 else 174
    case _ => -1
  }

  function SymbolAt26x(r: int, k: int): int {
    match r
    case 260 => if k == 0 then 186 else if k == 1 then 189 else 194
    case 262 => if k == 0 then 129 else if k == 1 then 186 else if k == 2 then 190 else 194
    case 264 => if k == 0 then 130 else if k == 1 then 186 else if k == 2 then 191 else 194
    case 266 => if k == 0 then 131 else if k == 1 then 186 else if k == 2 then 192 else 194
    case 268 => if k == 0 then 132 else if k == 1 then 186 else if k == 2 then 193 else 194
    case 269 => if k == 0 then 90 else if k == 1 then 173 else 91
    case _ => -1
  }

  function SymbolAt27x(r: int, k: int): int {
    match r
    case 270 => 202
    case 271 => 196
    case 272 => 199
    case 273 => 197
    case 274 => 201
    case 275 => 198
    case 276 => if k == 0 then 69 else if k == 1 then 198 else 68
    case 277 => if k == 0 then 69 else if k == 1 then 198 else if k == 2 then 68 else 210
    case 278 => if k == 0 then 209 else 198
    case 279 => if k == 0 then 209 else 201
    case _ => -1
  }

  function SymbolAt28x(r: int, k: int): int {
    match r
    case 280 => if k == 0 then 69 else if k == 1 then 200 else 68
    case 281 => if k == 0 then 69 else if k == 1 then 200 else if k == 2 then 68 else 210
    case 282 => if k == 0 then 209 else 199
    case 283 => 201
    case 284 => 199
    case 285 => 66
    case 286 => if k == 0 then 66 else 210
    case 287 => 203
    case 288 => 204
    case 289 => if k == 0 then 209 else 204
    case _ => -1
  }

  function SymbolAt29x(r: int, k: int): int {
    match r
    case 290 => if k == 0 then 204 else 210
    case 291 => if k == 0 then 69 else if k == 1 then 203 else 68
    case 292 => if k == 0 then 69 else if k == 1 then 203 else if k == 2 then 68 else 210
    case 293 => if k == 0 then 209 else 203
    case 294 => 65
    case 295 => if k == 0 then 69 else if k == 1 then 204 else 68
    case 297 => if k == 0 then 204 else if k == 1 then 69 else if k == 2 then 206 else if k == 3 then 162 else 68
    case 298 => if k == 0 then 69 else if k == 1 then 205 else 68
    case 299 => if k == 0 then 69 else if k == 1 then 205 else if k == 2 then 68 else 210
    case _ => -1
  }

  function SymbolAt30x(r: int, k: int): int {
    match r
    case 300 => if k == 0 then 209 else 205
    case 301 => 208
    case 303 => 209
    case 304 => 210
    case 305 => if k == 0 then 209 else 208
    case 306 => if k == 0 then 69 else if k == 1 then 208 else 68
    case 307 => if k == 0 then 69 else if k == 1 then 208 else if k == 2 then 68 else 210
    case 308 => 75
    case 309 => if k == 0 then 75 else 132
    case _ => -1
  }

  function SymbolAt31x(r: int, k: int): int {
    match r
    case 310 => 212
    case 311 => if k == 0 then 69 else 68
    case 313 => if k == 0 then 69 else if k == 1 then 211 else if k == 2 then 159 else 68
    case 314 => if k == 0 then 70 else 71
    case 315 => if k == 0 then 70 else if k == 1 then 118 else 71
    case 316 => if k == 0 then 212 else if k == 1 then 70 else if k == 2 then 118 else 71
    case _ => -1
  }

  /** yyrhs, cut up by yyprhs. */
  function SymbolAt(r: int, k: int): int {
    if r < 160 then
      if r < 80 then
        if r < 40 then
          if r < 20 then
            if r < 10 then SymbolAt0x(r, k) else SymbolAt1x(r, k)
          else
            if r < 30 then SymbolAt2x(r, k) else SymbolAt3x(r, k)
        else
          if r < 60 then
            if r < 50 then SymbolAt4x(r, k) else SymbolAt5x(r, k)
          else
            if r < 70 then SymbolAt6x(r, k) else SymbolAt7x(r, k)
      else
        if r < 120 then
          if r < 100 then
            if r < 90 then SymbolAt8x(r, k) else SymbolAt9x(r, k)
          else
            if r < 110 then SymbolAt10x(r, k) else SymbolAt11x(r, k)
        else
          if r < 140 then
            if r < 130 then SymbolAt12x(r, k) else SymbolAt13x(r, k)
          else
            if r < 150 then SymbolAt14x(r, k) else SymbolAt15x(r, k)
    else
      if r < 240 then
        if r < 200 then
          if r < 180 then
            if r < 170 then SymbolAt16x(r, k) else SymbolAt17x(r, k)
          else
            if r < 190 then SymbolAt18x(r, k) else SymbolAt19x(r, k)
        else
          if r < 220 then
            if r < 210 then SymbolAt20x(r, k) else SymbolAt21x(r, k)
          else
            if r < 230 then SymbolAt22x(r, k) else SymbolAt23x(r, k)
      else
        if r < 280 then
          if r < 260 then
            if r < 250 then SymbolAt24x(r, k) else SymbolAt25x(r, k)
          else
            if r < 270 then SymbolAt26x(r, k) else SymbolAt27x(r, k)
        else
          if r < 300 then
            if r < 290 then SymbolAt28x(r, k) else SymbolAt29x(r, k)
          else
            if r < 310 then SymbolAt30x(r, k) else SymbolAt31x(r, k)
  }

  /** Tables of a parser for this grammar, whatever its states. */
  ghost predicate IsForGrammar(t: Tables) {
    && t.ntBase == 92 && |t.pgoto| == |t.defgoto| == 121 && |t.r1| == |t.rhs| == RULES
    && forall r | 0 <= r < RULES :: RuleIs(t, r)
  }

  ghost predicate RuleIs(t: Tables, r: int) {
    && 0 <= r < |t.r1| && r < |t.rhs| && t.r1[r] == R1At(r) && |t.rhs[r]| == LengthAt(r)
    && forall k | 0 <= k < |t.rhs[r]| :: t.rhs[r][k] == SymbolAt(r, k)
  }
}
