/** Words are Go strings taken rune by rune. */
module Words {

  type Word = seq<char>
}
