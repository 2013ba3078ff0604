/**
 * The static track catalog of the shared layout. Only the fields the playback
 * logic reads are kept: the title (the identity key), the audio locator and the
 * declared duration in seconds. Artwork and the artist line are display-only.
 * The catalog is written column by column, in display order.
 */
module Catalog {

  /** One catalog entry. `title` is the entry's identity key. */
  datatype Track = Track(title: string, audioUrl: string, duration: real)

  /** The titles, in display order. */
  const Titles: seq<string> := [
    "Massive",
    "Virtual Insanity",
    " tell you straight",
    "FORWARD",
    "Feel Good Inc.",
    "Untitled",
    "CRAZY",
    "Danielle",
    "Battlefield",
    "On the low",
    "Vishay Khatam",
    "Chainsaw Blood",
    "Igloo",
    "Tyler Herro",
    "ETA",
    "Vampire",
    "M a k e I t T o T h e M o r n i n g",
    "Hanumankind Freestyle",
    "To The Light",
    "Jungle"
  ]

  /** The audio locators, in display order. */
  const AudioUrls: seq<string> := [
    "/massivecobalt.mp3",
    "https://audio.jukehost.co.uk/Z0LeugwQUdZRa0yTOx56rRKXEgZ5ZaP1",
    "https://audio.jukehost.co.uk/8lTU7EIOmpbmcWrfqxeWYac1JGqnSfrg",
    "https://audio.jukehost.co.uk/YMZEu5fXeEZ5wJtJECNlmQclv0aInpJc",
    "https://audio.jukehost.co.uk/F8vAgMn9iBjJ0VFIynaM6IwU5weVbnRo",
    "https://audio.jukehost.co.uk/oKBB7swMnQ7PReJ0QqhfKocjlNp8feBS",
    "https://audio.jukehost.co.uk/5gKX2yfp3pJ7r0UlUPNyTggVAYp2mNTo",
    "https://audio.jukehost.co.uk/i8UFY3wfgQuuv743Y3S5LMb49gMuPFHv",
    "https://audio.jukehost.co.uk/Jz3nb76dRP6KXOdT4OuKQSoyJaCoMfLA",
    "https://audio.jukehost.co.uk/pqJdIu0kDDd7hzqjbFdwOjMfI4G7YaF2",
    "https://audio.jukehost.co.uk/OlwN8PbOf5r8CowBnUWpQ273OI5Iixyd",
    "https://audio.jukehost.co.uk/eY6tuuo9j55gtx235RIrgBMgHewVQNlD",
    "https://audio.jukehost.co.uk/arShEWSXuqj6gg9dflrMuRN2NeyEslq5",
    "https://audio.jukehost.co.uk/ezjlRt6HkMQnoIipN342fc4gyoCqQ9Pp",
    "https://audio.jukehost.co.uk/w10913rk2r83fPvbn1biqDZs1blD9f8i",
    "https://audio.jukehost.co.uk/9rnl9qIBtQPAyjHnRJOBcAQljTTtRUxK",
    "https://audio.jukehost.co.uk/G7S0MPAZfK4sU4DLvXdo2L2xYeHmEQ8m",
    "https://audio.jukehost.co.uk/W2rkbwsujg9rt98c1hV8clPL8UfQl8k3",
    "https://audio.jukehost.co.uk/QA5bS1H6GNnwkCHk6BBqhSEkTv34aLo2",
    "https://audio.jukehost.co.uk/5ZZXJnDag1RK2neMn0tlqpfYT9ovgqRC"
  ]

  /** The declared durations in seconds, in display order. */
  const Durations: seq<real> := [337.0, 234.72, 124.9436, 136.7249, 253.9886, 167.1053, 170.0571, 193.7763, 218.2008, 202.3183, 191.9216, 222.1714, 145.6849, 156.6302, 194.7429, 186.8278, 168.6726, 155.0, 236.0, 195.0]

  /** The catalog entry at position `i`, assembled from the three columns. */
  function Entry(i: nat): Track
    requires i < |Titles|
  {
    Track(Titles[i], AudioUrls[i], Durations[i])
  }

  /** The first `n` catalog entries, in display order. */
  function Prefix(n: nat): (r: seq<Track>)
    requires n <= |Titles|
    ensures |r| == n
    ensures forall i :: 0 <= i < n ==> r[i] == Entry(i)
  {
    if n == 0 then [] else Prefix(n - 1) + [Entry(n - 1)]
  }

  /** The catalog, in display order. */
  const Games: seq<Track> := Prefix(|Titles|)

  /** `g` is one of the catalog's entries. */
  ghost predicate InCatalog(g: Track)
  {
    g in Games
  }

  /** No two entries share a title: the titles serve as list keys and as the selection identity. */
  ghost predicate DistinctTitles(s: seq<Track>)
  {
    forall i, j :: 0 <= i < j < |s| ==> s[i].title != s[j].title
  }

  /** The catalog has twenty entries and its titles are pairwise distinct. */
  lemma GamesTitlesDistinct()
    ensures |Games| == 20 && DistinctTitles(Games)
  {
    assert |Titles| == 20;
    assert forall i, j :: 0 <= i < j < |Titles| ==> Titles[i] != Titles[j];
  }

  /**
   * Inside the catalog a title identifies its track, so comparing by title
   * (as the click handler does) is comparing the tracks themselves.
   */
  lemma TitleIdentifiesTrack(g: Track, h: Track)
    requires InCatalog(g) && InCatalog(h)
    ensures g.title == h.title <==> g == h
  {
    GamesTitlesDistinct();
    var i :| 0 <= i < |Games| && Games[i] == g;
    var j :| 0 <= j < |Games| && Games[j] == h;
    if i < j {
      assert Games[i].title != Games[j].title;
    } else if j < i {
      assert Games[j].title != Games[i].title;
    }
  }
}
