/** Model of the two functions exported by
    exercises/1-fundamentals/1.1-introduction/start.ts, over exact real
    arithmetic. */
module Introduccion {
  import opened Resultados

  /** Price times quantity, less `discount` percent of it. */
  function CalculateTotal(price: real, quantity: real, discount: real): (total: real)
    ensures total == price * quantity * (100.0 - discount) / 100.0
    ensures discount == 0.0 ==> total == price * quantity
    ensures discount == 100.0 ==> total == 0.0
  {
    var subtotal := price * quantity;
    subtotal - (subtotal * discount / 100.0)
  }

  /** A discount between 0 and 100 percent on non-negative price and quantity
      yields a total between zero and the undiscounted subtotal, and a larger
      discount never yields a larger total. */
  lemma CalculateTotalAcotado(price: real, quantity: real, discount: real, mayor: real)
    requires price >= 0.0 && quantity >= 0.0
    requires 0.0 <= discount <= mayor <= 100.0
    ensures 0.0 <= CalculateTotal(price, quantity, discount) <= price * quantity
    ensures CalculateTotal(price, quantity, mayor) <= CalculateTotal(price, quantity, discount)
  {
    var subtotal := price * quantity;
    assert subtotal >= 0.0;
    assert subtotal * discount <= subtotal * mayor;
    assert subtotal * mayor <= subtotal * 100.0;
    assert subtotal * discount >= 0.0;
    assert CalculateTotal(price, quantity, discount) == subtotal - subtotal * discount / 100.0;
  }

  /** First and last name separated by a space, with the middle name between
      them only when it is asked for and is a non-empty string. */
  function FormatName(firstName: string, lastName: string, includeMiddle: bool,
                      middleName: Option<string>): (r: string)
    ensures includeMiddle && Truthy(middleName) ==>
      r == firstName + " " + middleName.value + " " + lastName
    ensures !(includeMiddle && Truthy(middleName)) ==> r == firstName + " " + lastName
    ensures |r| >= |firstName| + 1 + |lastName|
    ensures r[..|firstName| + 1] == firstName + " "
    ensures r[|r| - |lastName| - 1..] == " " + lastName
  {
    if includeMiddle && Truthy(middleName) then
      firstName + " " + middleName.value + " " + lastName
    else
      firstName + " " + lastName
  }
}
