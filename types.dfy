/** Value types shared by the client component and the server handler
    (financechatbot/app/types.ts). Amounts are whole cents. */
module Types {

  datatype Option<+T> = None | Some(value: T)

  datatype Result<+T> = Ok(value: T) | Err

  /** One spreadsheet row after normalisation (FinancialTransaction). */
  datatype Transaction = Transaction(date: string, description: string, amount: int, category: string)

  /** The derived summary of one uploaded file (FinancialAnalysis). */
  datatype Analysis = Analysis(
    totalIncome: int,
    totalExpenses: int,
    savings: int,
    categories: map<string, int>,
    transactions: seq<Transaction>)

  datatype Role = User | Assistant | System

  /** A chat history entry (ChatMessage); `fileData` is the optional attached transaction list. */
  datatype ChatMessage = ChatMessage(role: Role, content: string, fileData: Option<seq<Transaction>>)

  /** The inference endpoint's reply body (ChatResponse): the generated texts of `output.choices`. */
  datatype ChatResponse = ChatResponse(choices: seq<string>)

  /** Messages whose role is not `system`, in their original order
      (the `filter(m => m.role !== 'system')` of both the client and the server). */
  function WithoutSystem(history: seq<ChatMessage>): (r: seq<ChatMessage>)
    ensures |r| <= |history|
    ensures forall i :: 0 <= i < |r| ==> r[i].role != System
  {
    if history == [] then []
    else (if history[0].role == System then [] else [history[0]]) + WithoutSystem(history[1..])
  }

  /** The filter drops exactly the `system` messages. */
  lemma {:induction false} WithoutSystemMembers(history: seq<ChatMessage>)
    ensures forall m :: m in WithoutSystem(history) ==> m in history && m.role != System
    ensures forall m :: m in history && m.role != System ==> m in WithoutSystem(history)
  {
    if history != [] {
      WithoutSystemMembers(history[1..]);
      assert forall m :: m in history <==> m == history[0] || m in history[1..] by {
        assert history == [history[0]] + history[1..];
      }
    }
  }

  lemma {:induction false} WithoutSystemAppend(a: seq<ChatMessage>, b: seq<ChatMessage>)
    ensures WithoutSystem(a + b) == WithoutSystem(a) + WithoutSystem(b)
  {
    if a == [] {
      assert a + b == b;
    } else {
      assert (a + b)[1..] == a[1..] + b;
      WithoutSystemAppend(a[1..], b);
    }
  }

  /** When no message has the `system` role the filter is the identity. */
  lemma {:induction false} WithoutSystemIdentity(history: seq<ChatMessage>)
    requires forall i :: 0 <= i < |history| ==> history[i].role != System
    ensures WithoutSystem(history) == history
  {
    if history != [] {
      WithoutSystemIdentity(history[1..]);
    }
  }
}
