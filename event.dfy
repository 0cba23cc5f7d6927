/** The closed set of input events (event.rs). */
module Events {

  datatype Direction = Up | Down | Left | Right

  datatype Button = Principal | Secondary | Back

  datatype Event = DirectionPressed(direction: Direction) | ButtonPressed(button: Button)
}
