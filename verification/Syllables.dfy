/**
 The two syllable tables of @p spelling and their reverse tables (core/src/phonemic.rs).
 */
module Syllables {
  type Byte = x: int | 0 <= x < 256

  /** Three lower-case letters. */
  predicate IsSyllable(s: string) {
    |s| == 3 && forall i :: 0 <= i < 3 ==> 'a' <= s[i] <= 'z'
  }

  /** The prefix syllables, sixteen at a time. */
  function Prefix(b: Byte): string {
    var i := b % 16;
    match b / 16
    case 0 => Prefix0(i)
    case 1 => Prefix1(i)
    case 2 => Prefix2(i)
    case 3 => Prefix3(i)
    case 4 => Prefix4(i)
    case 5 => Prefix5(i)
    case 6 => Prefix6(i)
    case 7 => Prefix7(i)
    case 8 => Prefix8(i)
    case 9 => Prefix9(i)
    case 10 => PrefixA(i)
    case 11 => PrefixB(i)
    case 12 => PrefixC(i)
    case 13 => PrefixD(i)
    case 14 => PrefixE(i)
    case _ => PrefixF(i)
  }

  function Prefix0(i: int): string {
    match i
    case 0 => "doz" case 1 => "mar" case 2 => "bin" case 3 => "wan" case 4 => "sam" case 5 => "lit" case 6 => "sig" case 7 => "hid"
    case 8 => "fid" case 9 => "lis" case 10 => "sog" case 11 => "dir" case 12 => "wac" case 13 => "sab" case 14 => "wis" case _ => "sib"
  }

  function Prefix1(i: int): string {
    match i
    case 0 => "rig" case 1 => "sol" case 2 => "dop" case 3 => "mod" case 4 => "fog" case 5 => "lid" case 6 => "hop" case 7 => "dar"
    case 8 => "dor" case 9 => "lor" case 10 => "hod" case 11 => "fol" case 12 => "rin" case 13 => "tog" case 14 => "sil" case _ => "mir"
  }

  function Prefix2(i: int): string {
    match i
    case 0 => "hol" case 1 => "pas" case 2 => "lac" case 3 => "rov" case 4 => "liv" case 5 => "dal" case 6 => "sat" case 7 => "lib"
    case 8 => "tab" case 9 => "han" case 10 => "tic" case 11 => "pid" case 12 => "tor" case 13 => "bol" case 14 => "fos" case _ => "dot"
  }

  function Prefix3(i: int): string {
    match i
    case 0 => "los" case 1 => "dil" case 2 => "for" case 3 => "pil" case 4 => "ram" case 5 => "tir" case 6 => "win" case 7 => "tad"
    case 8 => "bic" case 9 => "dif" case 10 => "roc" case 11 => "wid" case 12 => "bis" case 13 => "das" case 14 => "mid" case _ => "lop"
  }

  function Prefix4(i: int): string {
    match i
    case 0 => "ril" case 1 => "nar" case 2 => "dap" case 3 => "mol" case 4 => "san" case 5 => "loc" case 6 => "nov" case 7 => "sit"
    case 8 => "nid" case 9 => "tip" case 10 => "sic" case 11 => "rop" case 12 => "wit" case 13 => "nat" case 14 => "pan" case _ => "min"
  }

  function Prefix5(i: int): string {
    match i
    case 0 => "rit" case 1 => "pod" case 2 => "mot" case 3 => "tam" case 4 => "tol" case 5 => "sav" case 6 => "pos" case 7 => "nap"
    case 8 => "nop" case 9 => "som" case 10 => "fin" case 11 => "fon" case 12 => "ban" case 13 => "mor" case 14 => "wor" case _ => "sip"
  }

  function Prefix6(i: int): string {
    match i
    case 0 => "ron" case 1 => "nor" case 2 => "bot" case 3 => "wic" case 4 => "soc" case 5 => "wat" case 6 => "dol" case 7 => "mag"
    case 8 => "pic" case 9 => "dav" case 10 => "bid" case 11 => "bal" case 12 => "tim" case 13 => "tas" case 14 => "mal" case _ => "lig"
  }

  function Prefix7(i: int): string {
    match i
    case 0 => "siv" case 1 => "tag" case 2 => "pad" case 3 => "sal" case 4 => "div" case 5 => "dac" case 6 => "tan" case 7 => "sid"
    case 8 => "fab" case 9 => "tar" case 10 => "mon" case 11 => "ran" case 12 => "nis" case 13 => "wol" case 14 => "mis" case _ => "pal"
  }

  function Prefix8(i: int): string {
    match i
    case 0 => "las" case 1 => "dis" case 2 => "map" case 3 => "rab" case 4 => "tob" case 5 => "rol" case 6 => "lat" case 7 => "lon"
    case 8 => "nod" case 9 => "nav" case 10 => "fig" case 11 => "nom" case 12 => "nib" case 13 => "pag" case 14 => "sop" case _ => "ral"
  }

  function Prefix9(i: int): string {
    match i
    case 0 => "bil" case 1 => "had" case 2 => "doc" case 3 => "rid" case 4 => "moc" case 5 => "pac" case 6 => "rav" case 7 => "rip"
    case 8 => "fal" case 9 => "tod" case 10 => "til" case 11 => "tin" case 12 => "hap" case 13 => "mic" case 14 => "fan" case _ => "pat"
  }

  function PrefixA(i: int): string {
    match i
    case 0 => "tac" case 1 => "lab" case 2 => "mog" case 3 => "sim" case 4 => "son" case 5 => "pin" case 6 => "lom" case 7 => "ric"
    case 8 => "tap" case 9 => "fir" case 10 => "has" case 11 => "bos" case 12 => "bat" case 13 => "poc" case 14 => "hac" case _ => "tid"
  }

  function PrefixB(i: int): string {
    match i
    case 0 => "hav" case 1 => "sap" case 2 => "lin" case 3 => "dib" case 4 => "hos" case 5 => "dab" case 6 => "bit" case 7 => "bar"
    case 8 => "rac" case 9 => "par" case 10 => "lod" case 11 => "dos" case 12 => "bor" case 13 => "toc" case 14 => "hil" case _ => "mac"
  }

  function PrefixC(i: int): string {
    match i
    case 0 => "tom" case 1 => "dig" case 2 => "fil" case 3 => "fas" case 4 => "mit" case 5 => "hob" case 6 => "har" case 7 => "mig"
    case 8 => "hin" case 9 => "rad" case 10 => "mas" case 11 => "hal" case 12 => "rag" case 13 => "lag" case 14 => "fad" case _ => "top"
  }

  function PrefixD(i: int): string {
    match i
    case 0 => "mop" case 1 => "hab" case 2 => "nil" case 3 => "nos" case 4 => "mil" case 5 => "fop" case 6 => "fam" case 7 => "dat"
    case 8 => "nol" case 9 => "din" case 10 => "hat" case 11 => "nac" case 12 => "ris" case 13 => "fot" case 14 => "rib" case _ => "hoc"
  }

  function PrefixE(i: int): string {
    match i
    case 0 => "nim" case 1 => "lar" case 2 => "fit" case 3 => "wal" case 4 => "rap" case 5 => "sar" case 6 => "nal" case 7 => "mos"
    case 8 => "lan" case 9 => "don" case 10 => "dan" case 11 => "lad" case 12 => "dov" case 13 => "riv" case 14 => "bac" case _ => "pol"
  }

  function PrefixF(i: int): string {
    match i
    case 0 => "lap" case 1 => "tal" case 2 => "pit" case 3 => "nam" case 4 => "bon" case 5 => "ros" case 6 => "ton" case 7 => "fod"
    case 8 => "pon" case 9 => "sov" case 10 => "noc" case 11 => "sor" case 12 => "lav" case 13 => "mat" case 14 => "mip" case _ => "fip"
  }

  /** The reverse table: the byte a prefix syllable stands for, or -1. */
  function PrefixIndex(s: string): int {
    if |s| != 3 then -1
    else
      match s[0]
      case 'b' => PrefixAfterB(s[1], s[2])
      case 'd' => PrefixAfterD(s[1], s[2])
      case 'f' => PrefixAfterF(s[1], s[2])
      case 'h' => PrefixAfterH(s[1], s[2])
      case 'l' => PrefixAfterL(s[1], s[2])
      case 'm' => PrefixAfterM(s[1], s[2])
      case 'n' => PrefixAfterN(s[1], s[2])
      case 'p' => PrefixAfterP(s[1], s[2])
      case 'r' => PrefixAfterR(s[1], s[2])
      case 's' => PrefixAfterS(s[1], s[2])
      case 't' => PrefixAfterT(s[1], s[2])
      case 'w' => PrefixAfterW(s[1], s[2])
      case _ => -1
  }

  function PrefixAfterB(v: char, c: char): int {
    match v
    case 'a' =>
      (match c
       case 'c' => 238 case 'l' => 107 case 'n' => 92 case 'r' => 183 case 't' => 172
       case _ => -1)
    case 'i' =>
      (match c
       case 'c' => 56 case 'd' => 106 case 'l' => 144 case 'n' => 2 case 's' => 60 case 't' => 182
       case _ => -1)
    case 'o' =>
      (match c
       case 'l' => 45 case 'n' => 244 case 'r' => 188 case 's' => 171 case 't' => 98
       case _ => -1)
    case _ => -1
  }

  function PrefixAfterD(v: char, c: char): int {
    match v
    case 'a' =>
      (match c
       case 'b' => 181 case 'c' => 117 case 'l' => 37 case 'n' => 234 case 'p' => 66 case 'r' => 23 case 's' => 61 case 't' => 215
       case 'v' => 105
       case _ => -1)
    case 'i' =>
      (match c
       case 'b' => 179 case 'f' => 57 case 'g' => 193 case 'l' => 49 case 'n' => 217 case 'r' => 11 case 's' => 129 case 'v' => 116
       case _ => -1)
    case 'o' =>
      (match c
       case 'c' => 146 case 'l' => 102 case 'n' => 233 case 'p' => 18 case 'r' => 24 case 's' => 187 case 't' => 47 case 'v' => 236
       case 'z' => 0
       case _ => -1)
    case _ => -1
  }

  function PrefixAfterF(v: char, c: char): int {
    match v
    case 'a' =>
      (match c
       case 'b' => 120 case 'd' => 206 case 'l' => 152 case 'm' => 214 case 'n' => 158 case 's' => 195
       case _ => -1)
    case 'i' =>
      (match c
       case 'd' => 8 case 'g' => 138 case 'l' => 194 case 'n' => 90 case 'p' => 255 case 'r' => 169 case 't' => 226
       case _ => -1)
    case 'o' =>
      (match c
       case 'd' => 247 case 'g' => 20 case 'l' => 27 case 'n' => 91 case 'p' => 213 case 'r' => 50 case 's' => 46 case 't' => 221
       case _ => -1)
    case _ => -1
  }

  function PrefixAfterH(v: char, c: char): int {
    match v
    case 'a' =>
      (match c
       case 'b' => 209 case 'c' => 174 case 'd' => 145 case 'l' => 203 case 'n' => 41 case 'p' => 156 case 'r' => 198 case 's' => 170
       case 't' => 218 case 'v' => 176
       case _ => -1)
    case 'i' =>
      (match c
       case 'd' => 7 case 'l' => 190 case 'n' => 200
       case _ => -1)
    case 'o' =>
      (match c
       case 'b' => 197 case 'c' => 223 case 'd' => 26 case 'l' => 32 case 'p' => 22 case 's' => 180
       case _ => -1)
    case _ => -1
  }

  function PrefixAfterL(v: char, c: char): int {
    match v
    case 'a' =>
      (match c
       case 'b' => 161 case 'c' => 34 case 'd' => 235 case 'g' => 205 case 'n' => 232 case 'p' => 240 case 'r' => 225 case 's' => 128
       case 't' => 134 case 'v' => 252
       case _ => -1)
    case 'i' =>
      (match c
       case 'b' => 39 case 'd' => 21 case 'g' => 111 case 'n' => 178 case 's' => 9 case 't' => 5 case 'v' => 36
       case _ => -1)
    case 'o' =>
      (match c
       case 'c' => 69 case 'd' => 186 case 'm' => 166 case 'n' => 135 case 'p' => 63 case 'r' => 25 case 's' => 48
       case _ => -1)
    case _ => -1
  }

  function PrefixAfterM(v: char, c: char): int {
    match v
    case 'a' =>
      (match c
       case 'c' => 191 case 'g' => 103 case 'l' => 110 case 'p' => 130 case 'r' => 1 case 's' => 202 case 't' => 253
       case _ => -1)
    case 'i' =>
      (match c
       case 'c' => 157 case 'd' => 62 case 'g' => 199 case 'l' => 212 case 'n' => 79 case 'p' => 254 case 'r' => 31 case 's' => 126
       case 't' => 196
       case _ => -1)
    case 'o' =>
      (match c
       case 'c' => 148 case 'd' => 19 case 'g' => 162 case 'l' => 67 case 'n' => 122 case 'p' => 208 case 'r' => 93 case 's' => 231
       case 't' => 82
       case _ => -1)
    case _ => -1
  }

  function PrefixAfterN(v: char, c: char): int {
    match v
    case 'a' =>
      (match c
       case 'c' => 219 case 'l' => 230 case 'm' => 243 case 'p' => 87 case 'r' => 65 case 't' => 77 case 'v' => 137
       case _ => -1)
    case 'i' =>
      (match c
       case 'b' => 140 case 'd' => 72 case 'l' => 210 case 'm' => 224 case 's' => 124
       case _ => -1)
    case 'o' =>
      (match c
       case 'c' => 250 case 'd' => 136 case 'l' => 216 case 'm' => 139 case 'p' => 88 case 'r' => 97 case 's' => 211 case 'v' => 70
       case _ => -1)
    case _ => -1
  }

  function PrefixAfterP(v: char, c: char): int {
    match v
    case 'a' =>
      (match c
       case 'c' => 149 case 'd' => 114 case 'g' => 141 case 'l' => 127 case 'n' => 78 case 'r' => 185 case 's' => 33 case 't' => 159
       case _ => -1)
    case 'i' =>
      (match c
       case 'c' => 104 case 'd' => 43 case 'l' => 51 case 'n' => 165 case 't' => 242
       case _ => -1)
    case 'o' =>
      (match c
       case 'c' => 173 case 'd' => 81 case 'l' => 239 case 'n' => 248 case 's' => 86
       case _ => -1)
    case _ => -1
  }

  function PrefixAfterR(v: char, c: char): int {
    match v
    case 'a' =>
      (match c
       case 'b' => 131 case 'c' => 184 case 'd' => 201 case 'g' => 204 case 'l' => 143 case 'm' => 52 case 'n' => 123 case 'p' => 228
       case 'v' => 150
       case _ => -1)
    case 'i' =>
      (match c
       case 'b' => 222 case 'c' => 167 case 'd' => 147 case 'g' => 16 case 'l' => 64 case 'n' => 28 case 'p' => 151 case 's' => 220
       case 't' => 80 case 'v' => 237
       case _ => -1)
    case 'o' =>
      (match c
       case 'c' => 58 case 'l' => 133 case 'n' => 96 case 'p' => 75 case 's' => 245 case 'v' => 35
       case _ => -1)
    case _ => -1
  }

  function PrefixAfterS(v: char, c: char): int {
    match v
    case 'a' =>
      (match c
       case 'b' => 13 case 'l' => 115 case 'm' => 4 case 'n' => 68 case 'p' => 177 case 'r' => 229 case 't' => 38 case 'v' => 85
       case _ => -1)
    case 'i' =>
      (match c
       case 'b' => 15 case 'c' => 74 case 'd' => 119 case 'g' => 6 case 'l' => 30 case 'm' => 163 case 'p' => 95 case 't' => 71
       case 'v' => 112
       case _ => -1)
    case 'o' =>
      (match c
       case 'c' => 100 case 'g' => 10 case 'l' => 17 case 'm' => 89 case 'n' => 164 case 'p' => 142 case 'r' => 251 case 'v' => 249
       case _ => -1)
    case _ => -1
  }

  function PrefixAfterT(v: char, c: char): int {
    match v
    case 'a' =>
      (match c
       case 'b' => 40 case 'c' => 160 case 'd' => 55 case 'g' => 113 case 'l' => 241 case 'm' => 83 case 'n' => 118 case 'p' => 168
       case 'r' => 121 case 's' => 109
       case _ => -1)
    case 'i' =>
      (match c
       case 'c' => 42 case 'd' => 175 case 'l' => 154 case 'm' => 108 case 'n' => 155 case 'p' => 73 case 'r' => 53
       case _ => -1)
    case 'o' =>
      (match c
       case 'b' => 132 case 'c' => 189 case 'd' => 153 case 'g' => 29 case 'l' => 84 case 'm' => 192 case 'n' => 246 case 'p' => 207
       case 'r' => 44
       case _ => -1)
    case _ => -1
  }

  function PrefixAfterW(v: char, c: char): int {
    match v
    case 'a' =>
      (match c
       case 'c' => 12 case 'l' => 227 case 'n' => 3 case 't' => 101
       case _ => -1)
    case 'i' =>
      (match c
       case 'c' => 99 case 'd' => 59 case 'n' => 54 case 's' => 14 case 't' => 76
       case _ => -1)
    case 'o' =>
      (match c
       case 'l' => 125 case 'r' => 94
       case _ => -1)
    case _ => -1
  }

  lemma PrefixRows0(b: Byte)
    requires 0 <= b < 32
    ensures PrefixIndex(Prefix(b)) == b && IsSyllable(Prefix(b))
  {
  }

  lemma PrefixRows1(b: Byte)
    requires 32 <= b < 64
    ensures PrefixIndex(Prefix(b)) == b && IsSyllable(Prefix(b))
  {
  }

  lemma PrefixRows2(b: Byte)
    requires 64 <= b < 96
    ensures PrefixIndex(Prefix(b)) == b && IsSyllable(Prefix(b))
  {
  }

  lemma PrefixRows3(b: Byte)
    requires 96 <= b < 128
    ensures PrefixIndex(Prefix(b)) == b && IsSyllable(Prefix(b))
  {
  }

  lemma PrefixRows4(b: Byte)
    requires 128 <= b < 160
    ensures PrefixIndex(Prefix(b)) == b && IsSyllable(Prefix(b))
  {
  }

  lemma PrefixRows5(b: Byte)
    requires 160 <= b < 192
    ensures PrefixIndex(Prefix(b)) == b && IsSyllable(Prefix(b))
  {
  }

  lemma PrefixRows6(b: Byte)
    requires 192 <= b < 224
    ensures PrefixIndex(Prefix(b)) == b && IsSyllable(Prefix(b))
  {
  }

  lemma PrefixRows7(b: Byte)
    requires 224 <= b < 256
    ensures PrefixIndex(Prefix(b)) == b && IsSyllable(Prefix(b))
  {
  }

  /** Every prefix syllable is looked up back to its byte: the table has no duplicate. */
  lemma PrefixRoundTrip(b: Byte)
    ensures PrefixIndex(Prefix(b)) == b && IsSyllable(Prefix(b))
  {
    match b / 32
    case 0 => PrefixRows0(b);
    case 1 => PrefixRows1(b);
    case 2 => PrefixRows2(b);
    case 3 => PrefixRows3(b);
    case 4 => PrefixRows4(b);
    case 5 => PrefixRows5(b);
    case 6 => PrefixRows6(b);
    case _ => PrefixRows7(b);
  }

  lemma PrefixLetterB(v: char, c: char)
    ensures -1 <= PrefixAfterB(v, c) < 256
    ensures PrefixAfterB(v, c) >= 0 ==> Prefix(PrefixAfterB(v, c)) == ['b', v, c]
  {
  }

  lemma PrefixLetterD(v: char, c: char)
    ensures -1 <= PrefixAfterD(v, c) < 256
    ensures PrefixAfterD(v, c) >= 0 ==> Prefix(PrefixAfterD(v, c)) == ['d', v, c]
  {
  }

  lemma PrefixLetterF(v: char, c: char)
    ensures -1 <= PrefixAfterF(v, c) < 256
    ensures PrefixAfterF(v, c) >= 0 ==> Prefix(PrefixAfterF(v, c)) == ['f', v, c]
  {
  }

  lemma PrefixLetterH(v: char, c: char)
    ensures -1 <= PrefixAfterH(v, c) < 256
    ensures PrefixAfterH(v, c) >= 0 ==> Prefix(PrefixAfterH(v, c)) == ['h', v, c]
  {
  }

  lemma PrefixLetterL(v: char, c: char)
    ensures -1 <= PrefixAfterL(v, c) < 256
    ensures PrefixAfterL(v, c) >= 0 ==> Prefix(PrefixAfterL(v, c)) == ['l', v, c]
  {
  }

  lemma PrefixLetterM(v: char, c: char)
    ensures -1 <= PrefixAfterM(v, c) < 256
    ensures PrefixAfterM(v, c) >= 0 ==> Prefix(PrefixAfterM(v, c)) == ['m', v, c]
  {
  }

  lemma PrefixLetterN(v: char, c: char)
    ensures -1 <= PrefixAfterN(v, c) < 256
    ensures PrefixAfterN(v, c) >= 0 ==> Prefix(PrefixAfterN(v, c)) == ['n', v, c]
  {
  }

  lemma PrefixLetterP(v: char, c: char)
    ensures -1 <= PrefixAfterP(v, c) < 256
    ensures PrefixAfterP(v, c) >= 0 ==> Prefix(PrefixAfterP(v, c)) == ['p', v, c]
  {
  }

  lemma PrefixLetterR(v: char, c: char)
    ensures -1 <= PrefixAfterR(v, c) < 256
    ensures PrefixAfterR(v, c) >= 0 ==> Prefix(PrefixAfterR(v, c)) == ['r', v, c]
  {
  }

  lemma PrefixLetterS(v: char, c: char)
    ensures -1 <= PrefixAfterS(v, c) < 256
    ensures PrefixAfterS(v, c) >= 0 ==> Prefix(PrefixAfterS(v, c)) == ['s', v, c]
  {
  }

  lemma PrefixLetterT(v: char, c: char)
    ensures -1 <= PrefixAfterT(v, c) < 256
    ensures PrefixAfterT(v, c) >= 0 ==> Prefix(PrefixAfterT(v, c)) == ['t', v, c]
  {
  }

  lemma PrefixLetterW(v: char, c: char)
    ensures -1 <= PrefixAfterW(v, c) < 256
    ensures PrefixAfterW(v, c) >= 0 ==> Prefix(PrefixAfterW(v, c)) == ['w', v, c]
  {
  }

  /** Whatever the reverse table finds is spelled that way in the table. */
  lemma PrefixLookup(s: string)
    ensures -1 <= PrefixIndex(s) < 256
    ensures PrefixIndex(s) >= 0 ==> Prefix(PrefixIndex(s)) == s
  {
    if |s| == 3 {
      assert s == [s[0], s[1], s[2]];
      match s[0]
      case 'b' => PrefixLetterB(s[1], s[2]);
      case 'd' => PrefixLetterD(s[1], s[2]);
      case 'f' => PrefixLetterF(s[1], s[2]);
      case 'h' => PrefixLetterH(s[1], s[2]);
      case 'l' => PrefixLetterL(s[1], s[2]);
      case 'm' => PrefixLetterM(s[1], s[2]);
      case 'n' => PrefixLetterN(s[1], s[2]);
      case 'p' => PrefixLetterP(s[1], s[2]);
      case 'r' => PrefixLetterR(s[1], s[2]);
      case 's' => PrefixLetterS(s[1], s[2]);
      case 't' => PrefixLetterT(s[1], s[2]);
      case 'w' => PrefixLetterW(s[1], s[2]);
      case _ =>
    }
  }

  /** The suffix syllables, sixteen at a time. */
  function Suffix(b: Byte): string {
    var i := b % 16;
    match b / 16
    case 0 => Suffix0(i)
    case 1 => Suffix1(i)
    case 2 => Suffix2(i)
    case 3 => Suffix3(i)
    case 4 => Suffix4(i)
    case 5 => Suffix5(i)
    case 6 => Suffix6(i)
    case 7 => Suffix7(i)
    case 8 => Suffix8(i)
    case 9 => Suffix9(i)
    case 10 => SuffixA(i)
    case 11 => SuffixB(i)
    case 12 => SuffixC(i)
    case 13 => SuffixD(i)
    case 14 => SuffixE(i)
    case _ => SuffixF(i)
  }

  function Suffix0(i: int): string {
    match i
    case 0 => "zod" case 1 => "nec" case 2 => "bud" case 3 => "wes" case 4 => "sev" case 5 => "per" case 6 => "sut" case 7 => "let"
    case 8 => "ful" case 9 => "pen" case 10 => "syt" case 11 => "dur" case 12 => "wep" case 13 => "ser" case 14 => "wyl" case _ => "sun"
  }

  function Suffix1(i: int): string {
    match i
    case 0 => "ryp" case 1 => "syx" case 2 => "dyr" case 3 => "nup" case 4 => "heb" case 5 => "peg" case 6 => "lup" case 7 => "dep"
    case 8 => "dys" case 9 => "put" case 10 => "lug" case 11 => "hec" case 12 => "ryt" case 13 => "tyv" case 14 => "syd" case _ => "nex"
  }

  function Suffix2(i: int): string {
    match i
    case 0 => "lun" case 1 => "mep" case 2 => "lut" case 3 => "sep" case 4 => "pes" case 5 => "del" case 6 => "sul" case 7 => "ped"
    case 8 => "tem" case 9 => "led" case 10 => "tul" case 11 => "met" case 12 => "wen" case 13 => "byn" case 14 => "hex" case _ => "feb"
  }

  function Suffix3(i: int): string {
    match i
    case 0 => "pyl" case 1 => "dul" case 2 => "het" case 3 => "mev" case 4 => "rut" case 5 => "tyl" case 6 => "wyd" case 7 => "tep"
    case 8 => "bes" case 9 => "dex" case 10 => "sef" case 11 => "wyc" case 12 => "bur" case 13 => "der" case 14 => "nep" case _ => "pur"
  }

  function Suffix4(i: int): string {
    match i
    case 0 => "rys" case 1 => "reb" case 2 => "den" case 3 => "nut" case 4 => "sub" case 5 => "pet" case 6 => "rul" case 7 => "syn"
    case 8 => "reg" case 9 => "tyd" case 10 => "sup" case 11 => "sem" case 12 => "wyn" case 13 => "rec" case 14 => "meg" case _ => "net"
  }

  function Suffix5(i: int): string {
    match i
    case 0 => "sec" case 1 => "mul" case 2 => "nym" case 3 => "tev" case 4 => "web" case 5 => "sum" case 6 => "mut" case 7 => "nyx"
    case 8 => "rex" case 9 => "teb" case 10 => "fus" case 11 => "hep" case 12 => "ben" case 13 => "mus" case 14 => "wyx" case _ => "sym"
  }

  function Suffix6(i: int): string {
    match i
    case 0 => "sel" case 1 => "ruc" case 2 => "dec" case 3 => "wex" case 4 => "syr" case 5 => "wet" case 6 => "dyl" case 7 => "myn"
    case 8 => "mes" case 9 => "det" case 10 => "bet" case 11 => "bel" case 12 => "tux" case 13 => "tug" case 14 => "myr" case _ => "pel"
  }

  function Suffix7(i: int): string {
    match i
    case 0 => "syp" case 1 => "ter" case 2 => "meb" case 3 => "set" case 4 => "dut" case 5 => "deg" case 6 => "tex" case 7 => "sur"
    case 8 => "fel" case 9 => "tud" case 10 => "nux" case 11 => "rux" case 12 => "ren" case 13 => "wyt" case 14 => "nub" case _ => "med"
  }

  function Suffix8(i: int): string {
    match i
    case 0 => "lyt" case 1 => "dus" case 2 => "neb" case 3 => "rum" case 4 => "tyn" case 5 => "seg" case 6 => "lyx" case 7 => "pun"
    case 8 => "res" case 9 => "red" case 10 => "fun" case 11 => "rev" case 12 => "ref" case 13 => "mec" case 14 => "ted" case _ => "rus"
  }

  function Suffix9(i: int): string {
    match i
    case 0 => "bex" case 1 => "leb" case 2 => "dux" case 3 => "ryn" case 4 => "num" case 5 => "pyx" case 6 => "ryg" case 7 => "ryx"
    case 8 => "fep" case 9 => "tyr" case 10 => "tus" case 11 => "tyc" case 12 => "leg" case 13 => "nem" case 14 => "fer" case _ => "mer"
  }

  function SuffixA(i: int): string {
    match i
    case 0 => "ten" case 1 => "lus" case 2 => "nus" case 3 => "syl" case 4 => "tec" case 5 => "mex" case 6 => "pub" case 7 => "rym"
    case 8 => "tuc" case 9 => "fyl" case 10 => "lep" case 11 => "deb" case 12 => "ber" case 13 => "mug" case 14 => "hut" case _ => "tun"
  }

  function SuffixB(i: int): string {
    match i
    case 0 => "byl" case 1 => "sud" case 2 => "pem" case 3 => "dev" case 4 => "lur" case 5 => "def" case 6 => "bus" case 7 => "bep"
    case 8 => "run" case 9 => "mel" case 10 => "pex" case 11 => "dyt" case 12 => "byt" case 13 => "typ" case 14 => "lev" case _ => "myl"
  }

  function SuffixC(i: int): string {
    match i
    case 0 => "wed" case 1 => "duc" case 2 => "fur" case 3 => "fex" case 4 => "nul" case 5 => "luc" case 6 => "len" case 7 => "ner"
    case 8 => "lex" case 9 => "rup" case 10 => "ned" case 11 => "lec" case 12 => "ryd" case 13 => "lyd" case 14 => "fen" case _ => "wel"
  }

  function SuffixD(i: int): string {
    match i
    case 0 => "nyd" case 1 => "hus" case 2 => "rel" case 3 => "rud" case 4 => "nes" case 5 => "hes" case 6 => "fet" case 7 => "des"
    case 8 => "ret" case 9 => "dun" case 10 => "ler" case 11 => "nyr" case 12 => "seb" case 13 => "hul" case 14 => "ryl" case _ => "lud"
  }

  function SuffixE(i: int): string {
    match i
    case 0 => "rem" case 1 => "lys" case 2 => "fyn" case 3 => "wer" case 4 => "ryc" case 5 => "sug" case 6 => "nys" case 7 => "nyl"
    case 8 => "lyn" case 9 => "dyn" case 10 => "dem" case 11 => "lux" case 12 => "fed" case 13 => "sed" case 14 => "bec" case _ => "mun"
  }

  function SuffixF(i: int): string {
    match i
    case 0 => "lyr" case 1 => "tes" case 2 => "mud" case 3 => "nyt" case 4 => "byr" case 5 => "sen" case 6 => "weg" case 7 => "fyr"
    case 8 => "mur" case 9 => "tel" case 10 => "rep" case 11 => "teg" case 12 => "pec" case 13 => "nel" case 14 => "nev" case _ => "fes"
  }

  /** The reverse table: the byte a suffix syllable stands for, or -1. */
  function SuffixIndex(s: string): int {
    if |s| != 3 then -1
    else
      match s[0]
      case 'b' => SuffixAfterB(s[1], s[2])
      case 'd' => SuffixAfterD(s[1], s[2])
      case 'f' => SuffixAfterF(s[1], s[2])
      case 'h' => SuffixAfterH(s[1], s[2])
      case 'l' => SuffixAfterL(s[1], s[2])
      case 'm' => SuffixAfterM(s[1], s[2])
      case 'n' => SuffixAfterN(s[1], s[2])
      case 'p' => SuffixAfterP(s[1], s[2])
      case 'r' => SuffixAfterR(s[1], s[2])
      case 's' => SuffixAfterS(s[1], s[2])
      case 't' => SuffixAfterT(s[1], s[2])
      case 'w' => SuffixAfterW(s[1], s[2])
      case 'z' => SuffixAfterZ(s[1], s[2])
      case _ => -1
  }

  function SuffixAfterB(v: char, c: char): int {
    match v
    case 'e' =>
      (match c
       case 'c' => 238 case 'l' => 107 case 'n' => 92 case 'p' => 183 case 'r' => 172 case 's' => 56 case 't' => 106 case 'x' => 144
       case _ => -1)
    case 'u' =>
      (match c
       case 'd' => 2 case 'r' => 60 case 's' => 182
       case _ => -1)
    case 'y' =>
      (match c
       case 'l' => 176 case 'n' => 45 case 'r' => 244 case 't' => 188
       case _ => -1)
    case _ => -1
  }

  function SuffixAfterD(v: char, c: char): int {
    match v
    case 'e' =>
      (match c
       case 'b' => 171 case 'c' => 98 case 'f' => 181 case 'g' => 117 case 'l' => 37 case 'm' => 234 case 'n' => 66 case 'p' => 23
       case 'r' => 61 case 's' => 215 case 't' => 105 case 'v' => 179 case 'x' => 57
       case _ => -1)
    case 'u' =>
      (match c
       case 'c' => 193 case 'l' => 49 case 'n' => 217 case 'r' => 11 case 's' => 129 case 't' => 116 case 'x' => 146
       case _ => -1)
    case 'y' =>
      (match c
       case 'l' => 102 case 'n' => 233 case 'r' => 18 case 's' => 24 case 't' => 187
       case _ => -1)
    case _ => -1
  }

  function SuffixAfterF(v: char, c: char): int {
    match v
    case 'e' =>
      (match c
       case 'b' => 47 case 'd' => 236 case 'l' => 120 case 'n' => 206 case 'p' => 152 case 'r' => 158 case 's' => 255 case 't' => 214
       case 'x' => 195
       case _ => -1)
    case 'u' =>
      (match c
       case 'l' => 8 case 'n' => 138 case 'r' => 194 case 's' => 90
       case _ => -1)
    case 'y' =>
      (match c
       case 'l' => 169 case 'n' => 226 case 'r' => 247
       case _ => -1)
    case _ => -1
  }

  function SuffixAfterH(v: char, c: char): int {
    match v
    case 'e' =>
      (match c
       case 'b' => 20 case 'c' => 27 case 'p' => 91 case 's' => 213 case 't' => 50 case 'x' => 46
       case _ => -1)
    case 'u' =>
      (match c
       case 'l' => 221 case 's' => 209 case 't' => 174
       case _ => -1)
    case _ => -1
  }

  function SuffixAfterL(v: char, c: char): int {
    match v
    case 'e' =>
      (match c
       case 'b' => 145 case 'c' => 203 case 'd' => 41 case 'g' => 156 case 'n' => 198 case 'p' => 170 case 'r' => 218 case 't' => 7
       case 'v' => 190 case 'x' => 200
       case _ => -1)
    case 'u' =>
      (match c
       case 'c' => 197 case 'd' => 223 case 'g' => 26 case 'n' => 32 case 'p' => 22 case 'r' => 180 case 's' => 161 case 't' => 34
       case 'x' => 235
       case _ => -1)
    case 'y' =>
      (match c
       case 'd' => 205 case 'n' => 232 case 'r' => 240 case 's' => 225 case 't' => 128 case 'x' => 134
       case _ => -1)
    case _ => -1
  }

  function SuffixAfterM(v: char, c: char): int {
    match v
    case 'e' =>
      (match c
       case 'b' => 114 case 'c' => 141 case 'd' => 127 case 'g' => 78 case 'l' => 185 case 'p' => 33 case 'r' => 159 case 's' => 104
       case 't' => 43 case 'v' => 51 case 'x' => 165
       case _ => -1)
    case 'u' =>
      (match c
       case 'd' => 242 case 'g' => 173 case 'l' => 81 case 'n' => 239 case 'r' => 248 case 's' => 93 case 't' => 86
       case _ => -1)
    case 'y' =>
      (match c
       case 'l' => 191 case 'n' => 103 case 'r' => 110
       case _ => -1)
    case _ => -1
  }

  function SuffixAfterN(v: char, c: char): int {
    match v
    case 'e' =>
      (match c
       case 'b' => 130 case 'c' => 1 case 'd' => 202 case 'l' => 253 case 'm' => 157 case 'p' => 62 case 'r' => 199 case 's' => 212
       case 't' => 79 case 'v' => 254 case 'x' => 31
       case _ => -1)
    case 'u' =>
      (match c
       case 'b' => 126 case 'l' => 196 case 'm' => 148 case 'p' => 19 case 's' => 162 case 't' => 67 case 'x' => 122
       case _ => -1)
    case 'y' =>
      (match c
       case 'd' => 208 case 'l' => 231 case 'm' => 82 case 'r' => 219 case 's' => 230 case 't' => 243 case 'x' => 87
       case _ => -1)
    case _ => -1
  }

  function SuffixAfterP(v: char, c: char): int {
    match v
    case 'e' =>
      (match c
       case 'c' => 252 case 'd' => 39 case 'g' => 21 case 'l' => 111 case 'm' => 178 case 'n' => 9 case 'r' => 5 case 's' => 36
       case 't' => 69 case 'x' => 186
       case _ => -1)
    case 'u' =>
      (match c
       case 'b' => 166 case 'n' => 135 case 'r' => 63 case 't' => 25
       case _ => -1)
    case 'y' =>
      (match c
       case 'l' => 48 case 'x' => 149
       case _ => -1)
    case _ => -1
  }

  function SuffixAfterR(v: char, c: char): int {
    match v
    case 'e' =>
      (match c
       case 'b' => 65 case 'c' => 77 case 'd' => 137 case 'f' => 140 case 'g' => 72 case 'l' => 210 case 'm' => 224 case 'n' => 124
       case 'p' => 250 case 's' => 136 case 't' => 216 case 'v' => 139 case 'x' => 88
       case _ => -1)
    case 'u' =>
      (match c
       case 'c' => 97 case 'd' => 211 case 'l' => 70 case 'm' => 131 case 'n' => 184 case 'p' => 201 case 's' => 143 case 't' => 52
       case 'x' => 123
       case _ => -1)
    case 'y' =>
      (match c
       case 'c' => 228 case 'd' => 204 case 'g' => 150 case 'l' => 222 case 'm' => 167 case 'n' => 147 case 'p' => 16 case 's' => 64
       case 't' => 28 case 'x' => 151
       case _ => -1)
    case _ => -1
  }

  function SuffixAfterS(v: char, c: char): int {
    match v
    case 'e' =>
      (match c
       case 'b' => 220 case 'c' => 80 case 'd' => 237 case 'f' => 58 case 'g' => 133 case 'l' => 96 case 'm' => 75 case 'n' => 245
       case 'p' => 35 case 'r' => 13 case 't' => 115 case 'v' => 4
       case _ => -1)
    case 'u' =>
      (match c
       case 'b' => 68 case 'd' => 177 case 'g' => 229 case 'l' => 38 case 'm' => 85 case 'n' => 15 case 'p' => 74 case 'r' => 119
       case 't' => 6
       case _ => -1)
    case 'y' =>
      (match c
       case 'd' => 30 case 'l' => 163 case 'm' => 95 case 'n' => 71 case 'p' => 112 case 'r' => 100 case 't' => 10 case 'x' => 17
       case _ => -1)
    case _ => -1
  }

  function SuffixAfterT(v: char, c: char): int {
    match v
    case 'e' =>
      (match c
       case 'b' => 89 case 'c' => 164 case 'd' => 142 case 'g' => 251 case 'l' => 249 case 'm' => 40 case 'n' => 160 case 'p' => 55
       case 'r' => 113 case 's' => 241 case 'v' => 83 case 'x' => 118
       case _ => -1)
    case 'u' =>
      (match c
       case 'c' => 168 case 'd' => 121 case 'g' => 109 case 'l' => 42 case 'n' => 175 case 's' => 154 case 'x' => 108
       case _ => -1)
    case 'y' =>
      (match c
       case 'c' => 155 case 'd' => 73 case 'l' => 53 case 'n' => 132 case 'p' => 189 case 'r' => 153 case 'v' => 29
       case _ => -1)
    case _ => -1
  }

  function SuffixAfterW(v: char, c: char): int {
    match v
    case 'e' =>
      (match c
       case 'b' => 84 case 'd' => 192 case 'g' => 246 case 'l' => 207 case 'n' => 44 case 'p' => 12 case 'r' => 227 case 's' => 3
       case 't' => 101 case 'x' => 99
       case _ => -1)
    case 'y' =>
      (match c
       case 'c' => 59 case 'd' => 54 case 'l' => 14 case 'n' => 76 case 't' => 125 case 'x' => 94
       case _ => -1)
    case _ => -1
  }

  function SuffixAfterZ(v: char, c: char): int {
    match v
    case 'o' =>
      (match c
       case 'd' => 0
       case _ => -1)
    case _ => -1
  }

  lemma SuffixRows0(b: Byte)
    requires 0 <= b < 32
    ensures SuffixIndex(Suffix(b)) == b && IsSyllable(Suffix(b))
  {
  }

  lemma SuffixRows1(b: Byte)
    requires 32 <= b < 64
    ensures SuffixIndex(Suffix(b)) == b && IsSyllable(Suffix(b))
  {
  }

  lemma SuffixRows2(b: Byte)
    requires 64 <= b < 96
    ensures SuffixIndex(Suffix(b)) == b && IsSyllable(Suffix(b))
  {
  }

  lemma SuffixRows3(b: Byte)
    requires 96 <= b < 128
    ensures SuffixIndex(Suffix(b)) == b && IsSyllable(Suffix(b))
  {
  }

  lemma SuffixRows4(b: Byte)
    requires 128 <= b < 160
    ensures SuffixIndex(Suffix(b)) == b && IsSyllable(Suffix(b))
  {
  }

  lemma SuffixRows5(b: Byte)
    requires 160 <= b < 192
    ensures SuffixIndex(Suffix(b)) == b && IsSyllable(Suffix(b))
  {
  }

  lemma SuffixRows6(b: Byte)
    requires 192 <= b < 224
    ensures SuffixIndex(Suffix(b)) == b && IsSyllable(Suffix(b))
  {
  }

  lemma SuffixRows7(b: Byte)
    requires 224 <= b < 256
    ensures SuffixIndex(Suffix(b)) == b && IsSyllable(Suffix(b))
  {
  }

  /** Every suffix syllable is looked up back to its byte: the table has no duplicate. */
  lemma SuffixRoundTrip(b: Byte)
    ensures SuffixIndex(Suffix(b)) == b && IsSyllable(Suffix(b))
  {
    match b / 32
    case 0 => SuffixRows0(b);
    case 1 => SuffixRows1(b);
    case 2 => SuffixRows2(b);
    case 3 => SuffixRows3(b);
    case 4 => SuffixRows4(b);
    case 5 => SuffixRows5(b);
    case 6 => SuffixRows6(b);
    case _ => SuffixRows7(b);
  }

  lemma SuffixLetterB(v: char, c: char)
    ensures -1 <= SuffixAfterB(v, c) < 256
    ensures SuffixAfterB(v, c) >= 0 ==> Suffix(SuffixAfterB(v, c)) == ['b', v, c]
  {
  }

  lemma SuffixLetterD(v: char, c: char)
    ensures -1 <= SuffixAfterD(v, c) < 256
    ensures SuffixAfterD(v, c) >= 0 ==> Suffix(SuffixAfterD(v, c)) == ['d', v, c]
  {
  }

  lemma SuffixLetterF(v: char, c: char)
    ensures -1 <= SuffixAfterF(v, c) < 256
    ensures SuffixAfterF(v, c) >= 0 ==> Suffix(SuffixAfterF(v, c)) == ['f', v, c]
  {
  }

  lemma SuffixLetterH(v: char, c: char)
    ensures -1 <= SuffixAfterH(v, c) < 256
    ensures SuffixAfterH(v, c) >= 0 ==> Suffix(SuffixAfterH(v, c)) == ['h', v, c]
  {
  }

  lemma SuffixLetterL(v: char, c: char)
    ensures -1 <= SuffixAfterL(v, c) < 256
    ensures SuffixAfterL(v, c) >= 0 ==> Suffix(SuffixAfterL(v, c)) == ['l', v, c]
  {
  }

  lemma SuffixLetterM(v: char, c: char)
    ensures -1 <= SuffixAfterM(v, c) < 256
    ensures SuffixAfterM(v, c) >= 0 ==> Suffix(SuffixAfterM(v, c)) == ['m', v, c]
  {
  }

  lemma SuffixLetterN(v: char, c: char)
    ensures -1 <= SuffixAfterN(v, c) < 256
    ensures SuffixAfterN(v, c) >= 0 ==> Suffix(SuffixAfterN(v, c)) == ['n', v, c]
  {
  }

  lemma SuffixLetterP(v: char, c: char)
    ensures -1 <= SuffixAfterP(v, c) < 256
    ensures SuffixAfterP(v, c) >= 0 ==> Suffix(SuffixAfterP(v, c)) == ['p', v, c]
  {
  }

  lemma SuffixLetterR(v: char, c: char)
    ensures -1 <= SuffixAfterR(v, c) < 256
    ensures SuffixAfterR(v, c) >= 0 ==> Suffix(SuffixAfterR(v, c)) == ['r', v, c]
  {
  }

  lemma SuffixLetterS(v: char, c: char)
    ensures -1 <= SuffixAfterS(v, c) < 256
    ensures SuffixAfterS(v, c) >= 0 ==> Suffix(SuffixAfterS(v, c)) == ['s', v, c]
  {
  }

  lemma SuffixLetterT(v: char, c: char)
    ensures -1 <= SuffixAfterT(v, c) < 256
    ensures SuffixAfterT(v, c) >= 0 ==> Suffix(SuffixAfterT(v, c)) == ['t', v, c]
  {
  }

  lemma SuffixLetterW(v: char, c: char)
    ensures -1 <= SuffixAfterW(v, c) < 256
    ensures SuffixAfterW(v, c) >= 0 ==> Suffix(SuffixAfterW(v, c)) == ['w', v, c]
  {
  }

  lemma SuffixLetterZ(v: char, c: char)
    ensures -1 <= SuffixAfterZ(v, c) < 256
    ensures SuffixAfterZ(v, c) >= 0 ==> Suffix(SuffixAfterZ(v, c)) == ['z', v, c]
  {
  }

  /** Whatever the reverse table finds is spelled that way in the table. */
  lemma SuffixLookup(s: string)
    ensures -1 <= SuffixIndex(s) < 256
    ensures SuffixIndex(s) >= 0 ==> Suffix(SuffixIndex(s)) == s
  {
    if |s| == 3 {
      assert s == [s[0], s[1], s[2]];
      match s[0]
      case 'b' => SuffixLetterB(s[1], s[2]);
      case 'd' => SuffixLetterD(s[1], s[2]);
      case 'f' => SuffixLetterF(s[1], s[2]);
      case 'h' => SuffixLetterH(s[1], s[2]);
      case 'l' => SuffixLetterL(s[1], s[2]);
      case 'm' => SuffixLetterM(s[1], s[2]);
      case 'n' => SuffixLetterN(s[1], s[2]);
      case 'p' => SuffixLetterP(s[1], s[2]);
      case 'r' => SuffixLetterR(s[1], s[2]);
      case 's' => SuffixLetterS(s[1], s[2]);
      case 't' => SuffixLetterT(s[1], s[2]);
      case 'w' => SuffixLetterW(s[1], s[2]);
      case 'z' => SuffixLetterZ(s[1], s[2]);
      case _ =>
    }
  }
}
