/**
 * The Codable records the view models carry around. Only the identifying
 * fields are kept: the view models never look inside them.
 */
module Records {

  datatype Track = Track(id: string, name: string)

  datatype Artist = Artist(id: string, name: string)

  datatype Album = Album(id: string, name: string)

  datatype User = User(id: string, displayName: string)
}
