/**
 * Library calls whose behaviour the model does not reproduce, passed in as
 * values: Node's `net.isIP`, the WHATWG `URL` parser and the Unicode
 * `Letter` category beyond ASCII.
 */
module Foreign {
  import opened Wrappers

  /** What `new URL(text)` yields when it does not throw. */
  datatype Url = Url(href: string, hostname: string)

  datatype Library = Library(
    /** `net.isIP(s) != 0`. */
    isIP: string -> bool,
    /** `new URL(s)`, or `None` where the constructor throws. */
    parseUrl: string -> Option<Url>,
    /** Membership of a non-ASCII character in the Unicode general category `L`. */
    isNonAsciiLetter: char -> bool)

  /** The library as Node provides it: the empty string is not an IP address. */
  type Runtime = lib: Library | !lib.isIP("")
    witness Library(_ => false, _ => None, _ => false)

  /** `\p{L}`: ASCII letters, and the letters the Unicode tables list beyond ASCII. */
  predicate IsLetter(rt: Runtime, c: char) {
    ('a' <= c <= 'z') || ('A' <= c <= 'Z') || (c as int >= 128 && rt.isNonAsciiLetter(c))
  }
}
