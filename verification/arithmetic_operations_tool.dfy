/**
 * The four arithmetic tools (tools/arithematic_operations_tool.py) over exact
 * numbers; `divide` answers a text instead of a number for a zero divisor.
 */
module ArithmeticOperationsTool {

  /** The exported tools, in order. */
  const ToolNames: seq<string> := ["multiply", "add", "subtract", "divide"]

  /** What `divide` returns: a quotient, or the error text. */
  datatype Quotient = Number(value: real) | Text(text: string)

  const DivisionByZero: string := "Error: Division by zero"

  function Multiply(a: real, b: real): real
  {
    a * b
  }

  function Add(a: real, b: real): real
  {
    a + b
  }

  function Subtract(a: real, b: real): real
  {
    a - b
  }

  function Divide(a: real, b: real): (q: Quotient)
    ensures q.Number? <==> b != 0.0
    ensures q.Number? ==> q.value * b == a
    ensures q.Text? ==> q.text == DivisionByZero
  {
    if b == 0.0 then Text(DivisionByZero) else Number(a / b)
  }

  /** Subtracting what was added gives back the first number; subtraction keeps its argument order. */
  lemma SubtractUndoesAdd(a: real, b: real)
    ensures Subtract(Add(a, b), b) == a
    ensures Add(Subtract(a, b), b) == a
    ensures Subtract(a, b) == -Subtract(b, a)
  {
  }

  /** Dividing a product by a non-zero factor gives back the other factor. */
  lemma DivideUndoesMultiply(a: real, b: real)
    requires b != 0.0
    ensures Divide(Multiply(a, b), b) == Number(a)
  {
  }

  /** Dividing by zero never raises: whatever the dividend, the answer is the error text. */
  lemma DivideByZeroIsText(a: real, a': real)
    ensures Divide(a, 0.0) == Divide(a', 0.0) == Text(DivisionByZero)
  {
  }

  /** Four tools, distinct, in the order multiply, add, subtract, divide. */
  lemma ExportedTools()
    ensures |ToolNames| == 4
    ensures ToolNames[0] == "multiply" && ToolNames[1] == "add" && ToolNames[2] == "subtract" && ToolNames[3] == "divide"
    ensures forall i, j :: 0 <= i < j < |ToolNames| ==> ToolNames[i] != ToolNames[j]
  {
  }
}
